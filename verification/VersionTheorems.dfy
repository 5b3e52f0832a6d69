/** What holds of the version store after any history of collections, snapshots, restores, deletions and pushes. */
module VersionTheorems {
  import opened Common
  import opened Utf8
  import opened Versions

  // A snapshot over something that is not the listing of the task's rows does not occur.
  datatype Op =
    | Collect(task: TaskId, found: seq<Found>)
    | Snapshot(task: TaskId, rows: seq<OutputId>)
    | Restore(no: int)
    | Delete(tasks: set<TaskId>)
    | Push(index: nat)

  ghost function Applied(t: Tables, op: Op): Tables {
    match op
    case Collect(task, found) => WithOutputs(t, task, found)
    case Snapshot(task, rows) => if IsListing(t, task, rows) then Snapshotted(t, task, rows).0 else t
    case Restore(no) => Restored(t, no).0
    case Delete(tasks) => Deleted(t, tasks)
    case Push(i) => PushedOne(t, i).0
  }

  ghost function After(t: Tables, ops: seq<Op>): Tables {
    if ops == [] then t else Applied(After(t, ops[..|ops| - 1]), ops[|ops| - 1])
  }

  // --- invariants ---

  ghost predicate Numbered(versions: seq<Version>) {
    forall i :: 0 <= i < |versions| ==> versions[i].no == i + 1
  }

  function Head(versions: seq<Version>): map<Path, OutputId> {
    if versions == [] then map[] else versions[|versions| - 1].manifest
  }

  ghost predicate FilesMatch(t: Tables) {
    t.files == Live(t, Head(t.versions))
  }

  ghost predicate IdsUsed(t: Tables) {
    && (forall o :: o in t.outputs ==> o < t.nextId)
    && (forall i :: 0 <= i < |t.versions| ==> forall q :: q in t.versions[i].manifest ==> t.versions[i].manifest[q] < t.nextId)
  }

  ghost predicate StoreOk(t: Tables) {
    Numbered(t.versions) && FilesMatch(t) && IdsUsed(t)
  }

  lemma {:induction false} NumberedMax(versions: seq<Version>)
    requires Numbered(versions)
    ensures MaxNo(versions) == |versions|
    ensures Latest(versions).Some? ==> Latest(versions).value == versions[|versions| - 1]
    decreases |versions|
  {
    if versions != [] {
      NumberedMax(versions[..|versions| - 1]);
    }
  }

  lemma NumberedFind(versions: seq<Version>, no: int)
    requires Numbered(versions)
    ensures Find(versions, no) == if 1 <= no <= |versions| then Some(versions[no - 1]) else None
  {
    if 1 <= no <= |versions| {
      assert versions[no - 1] in versions;
    }
  }

  lemma {:induction false} CollectOk(t: Tables, task: TaskId, found: seq<Found>)
    requires StoreOk(t)
    ensures var u := WithOutputs(t, task, found);
      && StoreOk(u) && u.files == t.files && u.versions == t.versions && u.nextId == t.nextId + |found|
      && (forall o :: o < t.nextId ==> (o in u.outputs <==> o in t.outputs))
    decreases |found|
  {
    if found != [] {
      CollectOk(t, task, found[..|found| - 1]);
      var u := WithOutputs(t, task, found[..|found| - 1]);
      var w := WithOutputs(t, task, found);
      assert Live(w, Head(w.versions)) == Live(u, Head(u.versions)) by {
        HeadIdsUsed(u);
      }
    }
  }

  lemma HeadIdsUsed(t: Tables)
    requires IdsUsed(t)
    ensures forall q :: q in Head(t.versions) ==> Head(t.versions)[q] < t.nextId
  {
  }

  lemma {:induction false} OverridesKnown(t: Tables, rows: seq<OutputId>)
    requires Known(t, rows)
    ensures forall q :: q in Overrides(t, rows) ==> Overrides(t, rows)[q] in rows && t.outputs[Overrides(t, rows)[q]].path == q
    ensures forall o :: o in rows ==> t.outputs[o].path in Overrides(t, rows)
    decreases |rows|
  {
    if rows != [] {
      var front := rows[..|rows| - 1];
      assert rows == front + [rows[|rows| - 1]];
      OverridesKnown(t, front);
    }
  }

  lemma CutOk(t: Tables, task: Option<TaskId>, files: map<Path, OutputId>)
    requires StoreOk(t) && AllLive(t, files)
    ensures StoreOk(Cut(t, task, files))
  {
    NumberedMax(t.versions);
    var u := Cut(t, task, files);
    assert Live(u, files) == files;
  }

  lemma SnapshotOk(t: Tables, task: TaskId, rows: seq<OutputId>)
    requires StoreOk(t) && Known(t, rows)
    ensures StoreOk(Snapshotted(t, task, rows).0)
    ensures AllLive(t, t.files + Overrides(t, rows))
  {
    OverridesKnown(t, rows);
    CutOk(t, Some(task), t.files + Overrides(t, rows));
  }

  lemma RestoreOk(t: Tables, no: int)
    requires StoreOk(t)
    ensures StoreOk(Restored(t, no).0)
  {
    if Restored(t, no).1.Success? {
      CutOk(t, Find(t.versions, no).value.task, Find(t.versions, no).value.manifest);
    }
  }

  lemma DeleteOk(t: Tables, tasks: set<TaskId>)
    requires StoreOk(t)
    ensures StoreOk(Deleted(t, tasks))
  {
    var u := Deleted(t, tasks);
    assert Head(u.versions) == Head(t.versions);
    assert u.files == Live(u, Head(u.versions));
  }

  lemma PushOk(t: Tables, i: nat)
    requires StoreOk(t)
    ensures StoreOk(PushedOne(t, i).0) && PushedOne(t, i).0.outputs == t.outputs && PushedOne(t, i).0.files == t.files
    ensures |PushedOne(t, i).0.versions| == |t.versions|
    ensures forall k :: 0 <= k < |t.versions| ==> PushedOne(t, i).0.versions[k].manifest == t.versions[k].manifest
  {
  }

  lemma OpOk(t: Tables, op: Op)
    requires StoreOk(t)
    ensures StoreOk(Applied(t, op))
  {
    match op {
      case Collect(task, found) => CollectOk(t, task, found);
      case Snapshot(task, rows) =>
        if IsListing(t, task, rows) {
          SnapshotOk(t, task, rows);
        }
      case Restore(no) => RestoreOk(t, no);
      case Delete(tasks) => DeleteOk(t, tasks);
      case Push(i) => PushOk(t, i);
    }
  }

  lemma {:induction false} AlwaysOk(ops: seq<Op>)
    ensures StoreOk(After(EMPTY, ops))
    decreases |ops|
  {
    if ops != [] {
      AlwaysOk(ops[..|ops| - 1]);
      OpOk(After(EMPTY, ops[..|ops| - 1]), ops[|ops| - 1]);
    }
  }

  // --- deployment and preview ---

  /**
   After any history, deletions included, the current files are the latest manifest restricted to
   the outputs that still exist, so deployment and preview serve the same bytes under the same paths.
   */
  lemma DeployServesWhatPreviewShows(ops: seq<Op>)
    ensures var t := After(EMPTY, ops);
      && AllLive(t, t.files)
      && (Latest(t.versions).None? ==> t.files == map[])
      && (Latest(t.versions).Some? ==>
            && Latest(t.versions).value.no == |t.versions|
            && Live(t, Latest(t.versions).value.manifest) == t.files
            && BytesOf(t, Live(t, Latest(t.versions).value.manifest)) == BytesOf(t, t.files))
  {
    AlwaysOk(ops);
    NumberedMax(After(EMPTY, ops).versions);
  }

  // --- history ---

  // Version rows may lose their task and gain their push mark, nothing else.
  ghost predicate Extends(older: seq<Version>, newer: seq<Version>) {
    && |older| <= |newer|
    && forall i :: 0 <= i < |older| ==> newer[i].no == older[i].no && newer[i].manifest == older[i].manifest
  }

  lemma {:induction false} CollectKeepsVersions(t: Tables, task: TaskId, found: seq<Found>)
    ensures WithOutputs(t, task, found).versions == t.versions
    decreases |found|
  {
    if found != [] {
      CollectKeepsVersions(t, task, found[..|found| - 1]);
    }
  }

  lemma OpExtends(t: Tables, op: Op)
    ensures Extends(t.versions, Applied(t, op).versions)
  {
    match op {
      case Collect(task, found) => CollectKeepsVersions(t, task, found);
      case _ =>
    }
  }

  /** A manifest is frozen: whatever happens later, version i keeps its number and its paths. */
  lemma {:induction false} ManifestsAreFrozen(t: Tables, ops: seq<Op>)
    ensures Extends(t.versions, After(t, ops).versions)
    decreases |ops|
  {
    if ops != [] {
      ManifestsAreFrozen(t, ops[..|ops| - 1]);
      OpExtends(After(t, ops[..|ops| - 1]), ops[|ops| - 1]);
    }
  }

  // What a history comes to, without the tables: the files written, restored and lost, in order.
  datatype Event = Wrote(files: map<Path, OutputId>) | WentBack(no: int) | Lost(gone: set<OutputId>)

  function Replay(log: seq<Event>): (map<Path, OutputId>, seq<map<Path, OutputId>>) {
    if log == [] then (map[], []) else ReplayStep(Replay(log[..|log| - 1]), log[|log| - 1])
  }

  // The current files and all versions so far, after one more event.
  function ReplayStep(so: (map<Path, OutputId>, seq<map<Path, OutputId>>), e: Event): (map<Path, OutputId>, seq<map<Path, OutputId>>) {
    var (files, history) := so;
    match e
    case Wrote(written) => (files + written, history + [files + written])
    case WentBack(no) => if 1 <= no <= |history| then (history[no - 1], history + [history[no - 1]]) else so
    case Lost(gone) => (Without(files, gone), history)
  }

  ghost function EventsOf(t: Tables, op: Op): seq<Event> {
    match op
    case Snapshot(task, rows) =>
      if IsListing(t, task, rows) && rows != [] && !PathTwice(t, rows) then [Wrote(Overrides(t, rows))] else []
    case Restore(no) => if Restored(t, no).1.Success? then [WentBack(no)] else []
    case Delete(tasks) => [Lost(OutputsOf(t, tasks))]
    case _ => []
  }

  ghost function Log(ops: seq<Op>): seq<Event> {
    if ops == [] then []
    else Log(ops[..|ops| - 1]) + EventsOf(After(EMPTY, ops[..|ops| - 1]), ops[|ops| - 1])
  }

  ghost predicate Explains(log: seq<Event>, t: Tables) {
    var (files, history) := Replay(log);
    && t.files == files && |t.versions| == |history|
    && forall i :: 0 <= i < |history| ==> t.versions[i].manifest == history[i] && t.versions[i].no == i + 1
  }

  lemma ReplayPush(log: seq<Event>, e: Event)
    ensures Replay(log + [e]) == ReplayStep(Replay(log), e)
  {
    assert (log + [e])[..|log|] == log;
  }

  lemma WroteExplained(log: seq<Event>, t: Tables, task: TaskId, rows: seq<OutputId>)
    requires StoreOk(t) && Explains(log, t) && Known(t, rows) && rows != [] && !PathTwice(t, rows)
    ensures Explains(log + [Wrote(Overrides(t, rows))], Snapshotted(t, task, rows).0)
  {
    NumberedMax(t.versions);
    ReplayPush(log, Wrote(Overrides(t, rows)));
  }

  lemma WentBackExplained(log: seq<Event>, t: Tables, no: int)
    requires StoreOk(t) && Explains(log, t) && Restored(t, no).1.Success?
    ensures Explains(log + [WentBack(no)], Restored(t, no).0)
  {
    NumberedMax(t.versions);
    NumberedFind(t.versions, no);
    ReplayPush(log, WentBack(no));
  }

  lemma LostExplained(log: seq<Event>, t: Tables, tasks: set<TaskId>)
    requires Explains(log, t)
    ensures Explains(log + [Lost(OutputsOf(t, tasks))], Deleted(t, tasks))
  {
    ReplayPush(log, Lost(OutputsOf(t, tasks)));
  }

  lemma OpExplained(log: seq<Event>, t: Tables, op: Op)
    requires StoreOk(t) && Explains(log, t)
    ensures Explains(log + EventsOf(t, op), Applied(t, op))
  {
    if EventsOf(t, op) == [] {
      assert log + EventsOf(t, op) == log;
    }
    match op {
      case Collect(task, found) => CollectOk(t, task, found);
      case Snapshot(task, rows) =>
        if EventsOf(t, op) != [] {
          WroteExplained(log, t, task, rows);
        }
      case Restore(no) =>
        if EventsOf(t, op) != [] {
          WentBackExplained(log, t, no);
        }
      case Delete(tasks) => LostExplained(log, t, tasks);
      case Push(i) => PushOk(t, i);
    }
  }

  /**
   Every stored version is what replaying the history gives: a snapshot puts the task's files over
   the current ones, a restore brings back version k, a deletion takes files away but no history;
   and versions are numbered 1..n.
   */
  lemma {:induction false} VersionsReplayTheHistory(ops: seq<Op>)
    ensures Explains(Log(ops), After(EMPTY, ops))
    decreases |ops|
  {
    if ops != [] {
      var front := ops[..|ops| - 1];
      VersionsReplayTheHistory(front);
      AlwaysOk(front);
      OpExplained(Log(front), After(EMPTY, front), ops[|ops| - 1]);
    }
  }

  // The task of each version, told by the history: cut for it or copied from the version restored,
  // and forgotten when the task is deleted.
  ghost function TasksOfVersions(ops: seq<Op>): seq<Option<TaskId>> {
    if ops == [] then [] else NamedAfter(TasksOfVersions(ops[..|ops| - 1]), ops[|ops| - 1], EventsOf(After(EMPTY, ops[..|ops| - 1]), ops[|ops| - 1]) != [])
  }

  function NamedAfter(named: seq<Option<TaskId>>, op: Op, tookEffect: bool): seq<Option<TaskId>> {
    match op
    case Snapshot(task, _) => if tookEffect then named + [Some(task)] else named
    case Restore(no) => if tookEffect && 1 <= no <= |named| then named + [named[no - 1]] else named
    case Delete(tasks) => seq(|named|, i requires 0 <= i < |named| => if named[i].Some? && named[i].value in tasks then None else named[i])
    case _ => named
  }

  ghost predicate Named(versions: seq<Version>, named: seq<Option<TaskId>>) {
    |versions| == |named| && forall i :: 0 <= i < |named| ==> versions[i].task == named[i]
  }

  lemma OpNames(t: Tables, op: Op, named: seq<Option<TaskId>>)
    requires StoreOk(t) && Named(t.versions, named)
    ensures Named(Applied(t, op).versions, NamedAfter(named, op, EventsOf(t, op) != []))
  {
    match op {
      case Collect(task, found) => CollectKeepsVersions(t, task, found);
      case Restore(no) => NumberedFind(t.versions, no);
      case _ =>
    }
  }

  /** After any history every version names the task it was cut for, a restored one that of its model, unless the task was deleted since. */
  lemma {:induction false} VersionsNameTheirTask(ops: seq<Op>)
    ensures Named(After(EMPTY, ops).versions, TasksOfVersions(ops))
    decreases |ops|
  {
    if ops != [] {
      var front := ops[..|ops| - 1];
      VersionsNameTheirTask(front);
      AlwaysOk(front);
      OpNames(After(EMPTY, front), ops[|ops| - 1], TasksOfVersions(front));
    }
  }

  // --- one snapshot ---

  ghost predicate DistinctPaths(t: Tables, rows: seq<OutputId>)
    requires Known(t, rows)
  {
    forall i, j :: 0 <= i < j < |rows| ==> t.outputs[rows[i]].path != t.outputs[rows[j]].path
  }

  lemma DistinctRows(t: Tables, rows: seq<OutputId>, o: OutputId, o': OutputId)
    requires Known(t, rows) && DistinctPaths(t, rows) && o in rows && o' in rows && o != o'
    ensures t.outputs[o].path != t.outputs[o'].path
  {
  }

  lemma DistinctInAnyOrder(t: Tables, task: TaskId, rows: seq<OutputId>, rows': seq<OutputId>)
    requires IsListing(t, task, rows) && IsListing(t, task, rows') && DistinctPaths(t, rows)
    ensures DistinctPaths(t, rows')
  {
    forall i, j | 0 <= i < j < |rows'|
      ensures t.outputs[rows'[i]].path != t.outputs[rows'[j]].path
    {
      assert rows'[i] in rows && rows'[j] in rows;
      DistinctRows(t, rows, rows'[i], rows'[j]);
    }
  }

  // With distinct paths every row overrides its path.
  lemma DistinctOverrides(t: Tables, rows: seq<OutputId>)
    requires Known(t, rows) && DistinctPaths(t, rows)
    ensures forall o :: o in rows ==> t.outputs[o].path in Overrides(t, rows) && Overrides(t, rows)[t.outputs[o].path] == o
    ensures forall q :: q in Overrides(t, rows) <==> exists o :: o in rows && t.outputs[o].path == q
  {
    OverridesKnown(t, rows);
    forall o | o in rows
      ensures Overrides(t, rows)[t.outputs[o].path] == o
    {
      OnePerPath(t, rows, o, Overrides(t, rows)[t.outputs[o].path]);
    }
  }

  lemma SameOverrides(t: Tables, task: TaskId, rows: seq<OutputId>, rows': seq<OutputId>)
    requires IsListing(t, task, rows) && IsListing(t, task, rows') && DistinctPaths(t, rows) && DistinctPaths(t, rows')
    ensures Overrides(t, rows) == Overrides(t, rows')
  {
    DistinctOverrides(t, rows);
    DistinctOverrides(t, rows');
    forall q | q in Overrides(t, rows)
      ensures q in Overrides(t, rows') && Overrides(t, rows')[q] == Overrides(t, rows)[q]
    {
      var o :| o in rows && t.outputs[o].path == q;
      assert o in rows';
    }
    forall q | q in Overrides(t, rows')
      ensures q in Overrides(t, rows)
    {
      var o :| o in rows' && t.outputs[o].path == q;
      assert o in rows;
    }
  }

  /** With distinct paths the order in which the rows come back does not matter, and every row of the task is in the new version. */
  lemma SnapshotIgnoresRowOrder(t: Tables, task: TaskId, rows: seq<OutputId>, rows': seq<OutputId>)
    requires IsListing(t, task, rows) && IsListing(t, task, rows') && DistinctPaths(t, rows)
    ensures Snapshotted(t, task, rows) == Snapshotted(t, task, rows')
    ensures rows != [] ==> Snapshotted(t, task, rows).1.Some?
    ensures forall o :: o in rows ==>
      var files := Snapshotted(t, task, rows).0.files; t.outputs[o].path in files && files[t.outputs[o].path] == o
  {
    DistinctInAnyOrder(t, task, rows, rows');
    SameOverrides(t, task, rows, rows');
    DistinctOverrides(t, rows);
    BothOrNeitherEmpty(rows, rows');
  }

  lemma BothOrNeitherEmpty(rows: seq<OutputId>, rows': seq<OutputId>)
    requires forall o :: o in rows <==> o in rows'
    ensures rows == [] <==> rows' == []
  {
    if rows != [] {
      assert rows[0] in rows;
    }
    if rows' != [] {
      assert rows'[0] in rows';
    }
  }

  lemma OnePerPath(t: Tables, rows: seq<OutputId>, o: OutputId, o': OutputId)
    requires Known(t, rows) && o in rows && o' in rows && t.outputs[o].path == t.outputs[o'].path
    requires forall i, j :: 0 <= i < j < |rows| ==> t.outputs[rows[i]].path != t.outputs[rows[j]].path
    ensures o == o'
  {
  }

  /** Where a task has several rows of one path, the last one listed is the one that counts. */
  lemma {:induction false} LastRowOfAPathCounts(t: Tables, rows: seq<OutputId>, k: nat)
    requires Known(t, rows) && k < |rows| && forall j :: k < j < |rows| ==> t.outputs[rows[j]].path != t.outputs[rows[k]].path
    ensures t.outputs[rows[k]].path in Overrides(t, rows) && Overrides(t, rows)[t.outputs[rows[k]].path] == rows[k]
    decreases |rows|
  {
    if k < |rows| - 1 {
      LastRowOfAPathCounts(t, rows[..|rows| - 1], k);
    }
  }

  // --- restores ---

  /** A restore succeeds exactly when the version exists and none of its outputs was deleted since; otherwise nothing changes. */
  lemma RestoreSucceedsIff(ops: seq<Op>, no: int)
    ensures var t := After(EMPTY, ops); var (u, res) := Restored(t, no);
      && (res.Success? <==> 1 <= no <= |t.versions| && AllLive(t, t.versions[no - 1].manifest))
      && (res.Success? ==> u.files == t.versions[no - 1].manifest && res.value == |t.versions| + 1)
      && (res.Failure? ==> u == t)
  {
    AlwaysOk(ops);
    RestoredWhen(After(EMPTY, ops), no);
    NumberedMax(After(EMPTY, ops).versions);
  }

  /** Going back to version k and then to the former head ends with the files one had, whenever the second restore succeeds at all. */
  lemma RestoreIsUndone(ops: seq<Op>, k: int)
    requires Restored(After(EMPTY, ops), k).1.Success?
    ensures var t := After(EMPTY, ops); var u := Restored(t, k).0; var (w, res) := Restored(u, |t.versions|);
      && (res.Success? <==> AllLive(t, Head(t.versions)))
      && (res.Success? ==> w.files == t.files && Head(w.versions) == Head(t.versions) && |w.versions| == |t.versions| + 2)
  {
    AlwaysOk(ops);
    RestoredTwice(After(EMPTY, ops), k);
  }

  lemma RestoredWhen(t: Tables, no: int)
    requires StoreOk(t)
    ensures Restored(t, no).1.Success? <==> 1 <= no <= |t.versions| && AllLive(t, t.versions[no - 1].manifest)
    ensures Restored(t, no).1.Success? ==> Restored(t, no).0 == Cut(t, t.versions[no - 1].task, t.versions[no - 1].manifest)
  {
    NumberedFind(t.versions, no);
  }

  lemma RestoredTwice(t: Tables, k: int)
    requires StoreOk(t) && Restored(t, k).1.Success?
    ensures var u := Restored(t, k).0; var (w, res) := Restored(u, |t.versions|);
      && (res.Success? <==> AllLive(t, Head(t.versions)))
      && (res.Success? ==> w.files == t.files && Head(w.versions) == Head(t.versions) && |w.versions| == |t.versions| + 2)
  {
    var u := Restored(t, k).0;
    RestoreOk(t, k);
    RestoredWhen(t, k);
    RestoredWhen(u, |t.versions|);
    assert u.versions[|t.versions| - 1] == t.versions[|t.versions| - 1] && u.outputs == t.outputs;
    LiveIsAll(t, Head(t.versions));
  }

  lemma LiveIsAll(t: Tables, manifest: map<Path, OutputId>)
    ensures AllLive(t, manifest) ==> Live(t, manifest) == manifest
  {
  }

  // --- pushes ---

  lemma {:induction false} BackfillMarks(t: Tables, upTo: nat)
    requires upTo <= |t.versions|
    ensures var u := Backfilled(t, upTo).0;
      && u.outputs == t.outputs && u.files == t.files && |u.versions| == |t.versions|
      && (forall i :: 0 <= i < |t.versions| ==> u.versions[i].manifest == t.versions[i].manifest)
      && (forall i :: 0 <= i < |t.versions| ==>
            u.versions[i].pushed == (t.versions[i].pushed || (i < upTo && Live(t, t.versions[i].manifest) != map[])))
    decreases upTo
  {
    if upTo > 0 {
      BackfillMarks(t, upTo - 1);
    }
  }

  lemma {:induction false} NothingToBackfill(t: Tables, upTo: nat)
    requires upTo <= |t.versions|
    requires forall i :: 0 <= i < upTo ==> t.versions[i].pushed || Live(t, t.versions[i].manifest) == map[]
    ensures Backfilled(t, upTo) == (t, 0)
    decreases upTo
  {
    if upTo > 0 {
      NothingToBackfill(t, upTo - 1);
    }
  }

  /** A second backfill pushes nothing; what stays unpushed has no file left to push. */
  lemma BackfillIsIdempotent(t: Tables)
    ensures var u := Backfilled(t, |t.versions|).0;
      && Backfilled(u, |u.versions|) == (u, 0)
      && (forall i :: 0 <= i < |u.versions| ==> (u.versions[i].pushed <==> t.versions[i].pushed || Live(t, t.versions[i].manifest) != map[]))
  {
    BackfillMarks(t, |t.versions|);
    var u := Backfilled(t, |t.versions|).0;
    forall i | 0 <= i < |u.versions|
      ensures Live(u, u.versions[i].manifest) == Live(t, t.versions[i].manifest)
    {
    }
    NothingToBackfill(u, |u.versions|);
  }

  ghost predicate Shows(repo: map<Path, seq<Byte>>, files: map<Path, seq<Byte>>) {
    forall q :: q in files ==> q in repo && repo[q] == files[q]
  }

  // The last of the first `upTo` versions that is still to be pushed with a surviving file at q.
  function LastPending(t: Tables, q: Path, upTo: nat): (i: Option<nat>)
    requires upTo <= |t.versions|
    ensures i.Some? ==> i.value < upTo && !t.versions[i.value].pushed && q in Live(t, t.versions[i.value].manifest)
  {
    if upTo == 0 then None
    else if !t.versions[upTo - 1].pushed && q in Live(t, t.versions[upTo - 1].manifest) then Some(upTo - 1)
    else LastPending(t, q, upTo - 1)
  }

  // What is at q after a backfill, as one can tell before it.
  function Coming(t: Tables, q: Path, upTo: nat): Option<seq<Byte>>
    requires upTo <= |t.versions|
  {
    var i := LastPending(t, q, upTo);
    if i.Some? then Some(GetBytes(t.outputs[t.versions[i.value].manifest[q]]))
    else if q in t.repo then Some(t.repo[q])
    else None
  }

  function InRepo(t: Tables, q: Path): Option<seq<Byte>> {
    if q in t.repo then Some(t.repo[q]) else None
  }

  lemma PushedPath(t: Tables, i: nat, q: Path)
    requires i < |t.versions|
    ensures InRepo(PushedOne(t, i).0, q)
         == if !t.versions[i].pushed && q in Live(t, t.versions[i].manifest) then Some(GetBytes(t.outputs[t.versions[i].manifest[q]])) else InRepo(t, q)
  {
  }

  lemma {:induction false} BackfilledPath(t: Tables, q: Path, upTo: nat)
    requires upTo <= |t.versions|
    ensures InRepo(Backfilled(t, upTo).0, q) == Coming(t, q, upTo)
    decreases upTo
  {
    if upTo > 0 {
      var m := Backfilled(t, upTo - 1).0;
      BackfilledPath(t, q, upTo - 1);
      BackfillMarks(t, upTo - 1);
      PushedPath(m, upTo - 1, q);
    }
  }

  /**
   After a backfill the repository shows the newest version exactly when, for each of its surviving
   files, the last version still to be pushed with a file of that path has the same bytes, or there
   is no such version and the repository has them already.
   */
  lemma BackfillShowsHeadIff(t: Tables)
    ensures var head := BytesOf(t, Live(t, Head(t.versions)));
      Shows(Backfilled(t, |t.versions|).0.repo, head) <==> forall q :: q in head ==> Coming(t, q, |t.versions|) == Some(head[q])
  {
    var head := BytesOf(t, Live(t, Head(t.versions)));
    var u := Backfilled(t, |t.versions|).0;
    forall q | q in head
      ensures (q in u.repo && u.repo[q] == head[q]) <==> Coming(t, q, |t.versions|) == Some(head[q])
    {
      BackfilledPath(t, q, |t.versions|);
    }
  }

  lemma PendingHeadComes(t: Tables, q: Path)
    requires t.versions != [] && !t.versions[|t.versions| - 1].pushed && q in Live(t, Head(t.versions))
    ensures Coming(t, q, |t.versions|) == Some(BytesOf(t, Live(t, Head(t.versions)))[q])
  {
  }

  lemma BackfillKeepsPath(t: Tables, q: Path)
    requires q in t.repo
    ensures q in Backfilled(t, |t.versions|).0.repo
  {
    BackfilledPath(t, q, |t.versions|);
  }

  /** So it does whenever the newest version was itself still to be pushed; and no path is ever lost. */
  lemma BackfillShowsPendingHead(t: Tables)
    requires t.versions != [] && !t.versions[|t.versions| - 1].pushed
    ensures Shows(Backfilled(t, |t.versions|).0.repo, BytesOf(t, Live(t, Head(t.versions))))
    ensures t.repo.Keys <= Backfilled(t, |t.versions|).0.repo.Keys
  {
    BackfillShowsHeadIff(t);
    var head := BytesOf(t, Live(t, Head(t.versions)));
    forall q | q in head
      ensures Coming(t, q, |t.versions|) == Some(head[q])
    {
      PendingHeadComes(t, q);
    }
    forall q | q in t.repo
      ensures q in Backfilled(t, |t.versions|).0.repo
    {
      BackfillKeepsPath(t, q);
    }
  }

  // --- inputs at which restore, snapshot and backfill fail, reached from the empty store ---

  lemma OneMore(t: Tables, ops: seq<Op>, op: Op)
    ensures After(t, ops + [op]) == Applied(After(t, ops), op)
  {
    assert (ops + [op])[..|ops|] == ops;
  }

  lemma TwoMore(t: Tables, a: Op, b: Op)
    ensures After(t, [a, b]) == Applied(Applied(t, a), b)
  {
    OneMore(t, [], a);
    OneMore(t, [a], b);
    assert [] + [a] == [a] && [a] + [b] == [a, b];
  }

  lemma OneFound(t: Tables, task: TaskId, f: Found)
    ensures WithOutputs(t, task, [f]) == t.(nextId := t.nextId + 1, outputs := t.outputs[t.nextId := RowOf(task, f)])
  {
    assert [f][..0] == [];
  }

  // A file without extension that cannot be decoded is kept as bytes.
  lemma KeptAsBytes(task: TaskId, b: Byte)
    requires b >= 0xF5
    ensures RowOf(task, Found("a", [b])) == Output(task, "a", None, Some([b]))
  {
    assert Extension("a") == "" by {
      assert "a"[..0] == "";
    }
    assert forall e :: e in TEXT_EXTENSIONS ==> e != "";
    assert !Whole([b]);
  }

  // Snapshot of a task with one output.
  lemma OneRowCut(t: Tables, task: TaskId, o: OutputId)
    requires IsListing(t, task, [o])
    ensures Applied(t, Snapshot(task, [o])) == Cut(t, Some(task), t.files + map[t.outputs[o].path := o])
  {
    assert o in [o];
    assert [o][..0] == [];
    assert Overrides(t, [o]) == map[t.outputs[o].path := o];
  }

  const FIRST := Tables(1, map[0 := Output(0, "a", None, Some([0xFE]))], map["a" := 0], [Version(1, Some(0), map["a" := 0], false)], map[])
  const FIRST_CUT := [Collect(0, [Found("a", [0xFE])]), Snapshot(0, [0])]

  lemma FirstCut()
    ensures After(EMPTY, FIRST_CUT) == FIRST
  {
    TwoMore(EMPTY, FIRST_CUT[0], FIRST_CUT[1]);
    OneFound(EMPTY, 0, Found("a", [0xFE]));
    KeptAsBytes(0, 0xFE);
    var t := Applied(EMPTY, FIRST_CUT[0]);
    assert t.outputs == map[0 := Output(0, "a", None, Some([0xFE]))];
    OneRowCut(t, 0, 0);
    assert t.files + map["a" := 0] == map["a" := 0];
  }

  /** A version whose output was deleted with its task cannot be restored. */
  lemma RestoreFailsAfterDeletion()
    ensures var t := After(EMPTY, FIRST_CUT + [Delete({0})]);
      |t.versions| == 1 && Restored(t, 1) == (t, Failure(ForeignKey))
  {
    FirstCut();
    OneMore(EMPTY, FIRST_CUT, Delete({0}));
    var t := After(EMPTY, FIRST_CUT + [Delete({0})]);
    assert OutputsOf(FIRST, {0}) == {0};
    assert t.versions[0] == Version(1, None, map["a" := 0], false);
    assert t.outputs == map[];
    assert "a" in t.versions[0].manifest;
  }

  const TWICE := [Found("a", [0xFE]), Found("a", [0xFF])]

  /** A task that brings one new path twice gets no version. */
  lemma SnapshotFailsOnRepeatedPath()
    ensures var t := After(EMPTY, [Collect(0, TWICE)]);
      IsListing(t, 0, [0, 1]) && Snapshotted(t, 0, [0, 1]) == (t, None)
  {
    OneMore(EMPTY, [], Collect(0, TWICE));
    assert [] + [Collect(0, TWICE)] == [Collect(0, TWICE)];
    assert TWICE[..1] == [TWICE[0]];
    OneFound(EMPTY, 0, TWICE[0]);
    KeptAsBytes(0, 0xFE);
    KeptAsBytes(0, 0xFF);
    var t := After(EMPTY, [Collect(0, TWICE)]);
    assert t.outputs == map[0 := Output(0, "a", None, Some([0xFE])), 1 := Output(0, "a", None, Some([0xFF]))];
    var rows: seq<OutputId> := [0, 1];
    assert t.outputs[rows[0]].path == t.outputs[rows[1]].path;
  }

  // Version 1 failed to push when it was cut, version 2 did not.
  const OVERTAKEN := Tables(2,
    map[0 := Output(0, "a", None, Some([0xFE])), 1 := Output(1, "a", None, Some([0xFF]))], map["a" := 1],
    [Version(1, Some(0), map["a" := 0], false), Version(2, Some(1), map["a" := 1], true)], map["a" := [0xFF]])
  const OVERTAKING := FIRST_CUT + [Collect(1, [Found("a", [0xFF])])] + [Snapshot(1, [1])] + [Push(1)]

  lemma OvertakenIsReached()
    ensures After(EMPTY, OVERTAKING) == OVERTAKEN
  {
    FirstCut();
    OneMore(EMPTY, FIRST_CUT, Collect(1, [Found("a", [0xFF])]));
    OneMore(EMPTY, FIRST_CUT + [Collect(1, [Found("a", [0xFF])])], Snapshot(1, [1]));
    OneMore(EMPTY, FIRST_CUT + [Collect(1, [Found("a", [0xFF])])] + [Snapshot(1, [1])], Push(1));
    SecondCut();
    SecondPushed(Applied(Applied(FIRST, Collect(1, [Found("a", [0xFF])])), Snapshot(1, [1])));
  }

  lemma SecondCut()
    ensures Applied(Applied(FIRST, Collect(1, [Found("a", [0xFF])])), Snapshot(1, [1]))
         == OVERTAKEN.(versions := [OVERTAKEN.versions[0], OVERTAKEN.versions[1].(pushed := false)], repo := map[])
  {
    OneFound(FIRST, 1, Found("a", [0xFF]));
    KeptAsBytes(1, 0xFF);
    var t := Applied(FIRST, Collect(1, [Found("a", [0xFF])]));
    assert t.outputs == OVERTAKEN.outputs;
    OneRowCut(t, 1, 1);
    assert t.files + map["a" := 1] == map["a" := 1];
  }

  lemma FirstPush(t: Tables, i: nat)
    requires i < |t.versions| && !t.versions[i].pushed && t.repo == map[] && Live(t, t.versions[i].manifest) != map[]
    ensures PushedOne(t, i).0 == t.(repo := BytesOf(t, Live(t, t.versions[i].manifest)), versions := t.versions[i := t.versions[i].(pushed := true)])
  {
    var shown := BytesOf(t, Live(t, t.versions[i].manifest));
    assert t.repo + shown == shown;
  }

  lemma SecondPushed(t: Tables)
    requires t == OVERTAKEN.(versions := [OVERTAKEN.versions[0], OVERTAKEN.versions[1].(pushed := false)], repo := map[])
    ensures PushedOne(t, 1).0 == OVERTAKEN
  {
    var live: map<Path, OutputId> := map["a" := 1];
    assert Live(t, live) == live;
    assert BytesOf(t, live) == OVERTAKEN.repo;
    assert "a" in live;
    FirstPush(t, 1);
  }

  /** A reachable store where the repository shows the newest version until a backfill puts an older file on top. */
  lemma BackfillCanGoBack()
    ensures var t := After(EMPTY, OVERTAKING);
      && Shows(t.repo, BytesOf(t, Live(t, Head(t.versions))))
      && !Shows(Backfilled(t, |t.versions|).0.repo, BytesOf(t, Live(t, Head(t.versions))))
  {
    OvertakenIsReached();
    var t := OVERTAKEN;
    assert Live(t, map["a" := 1]) == map["a" := 1];
    var head := BytesOf(t, map["a" := 1]);
    assert head == map["a" := [0xFF]];
    BackfillShowsHeadIff(t);
    assert LastPending(t, "a", 2) == Some(0);
    assert Coming(t, "a", 2) == Some([0xFE]);
    assert head["a"] == [0xFF];
  }
}
