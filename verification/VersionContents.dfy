/** What the version store serves, byte for byte, after any history: the files that were found in the sandbox. */
module VersionContents {
  import opened Common
  import opened Utf8
  import opened Versions
  import opened VersionTheorems

  // --- one file ---

  // The name says text although the data cannot be decoded.
  predicate Garbled(f: Found) {
    Extension(f.path) in TEXT_EXTENSIONS && Decoded(f.data).None?
  }

  // These bytes are the file, or its decodable parts where it is garbled.
  ghost predicate Holds(f: Found, bytes: seq<Byte>) {
    if Garbled(f) then Decoded(bytes) == Some(Mended(f.data)) else bytes == f.data
  }

  /** A file comes back from the store as it was found, unless its name says text and its data cannot be decoded; then it never does. */
  lemma FileComesBackIff(task: TaskId, f: Found)
    ensures GetBytes(RowOf(task, f)) == f.data <==> !Garbled(f)
    ensures Holds(f, GetBytes(RowOf(task, f)))
  {
    MendingIsHarmlessIff(f.data);
    DecodedOfEncoded(Mended(f.data));
  }

  /** Such files exist: one byte in an old encoding is enough. */
  lemma GarbledFileExists()
    ensures Garbled(Found(".py", [0xE9]))
  {
    assert ".py"[..2] == ".p" && ".p"[..1] == ".";
    assert Extension(".py") == ".py";
    assert !Whole([0xE9]);
  }

  function Lowered(s: string): string {
    if s == "" then "" else [Lower(s[0])] + Lowered(s[1..])
  }

  lemma {:induction false} NoDotNoExtension(path: Path)
    requires '.' !in path
    ensures Extension(path) == ""
    decreases |path|
  {
    if path != "" {
      var front := path[..|path| - 1];
      assert path == front + [path[|path| - 1]];
      NoDotNoExtension(front);
    }
  }

  lemma LoweredPush(s: string, c: char)
    ensures Lowered(s + [c]) == Lowered(s) + [Lower(c)]
  {
    if s == "" {
      assert s + [c] == [c] && [c][1..] == "";
    } else {
      LoweredPush(s[1..], c);
      assert (s + [c])[1..] == s[1..] + [c];
    }
  }

  /** The extension is what stands behind the last dot, with the dot and in lower case; without a dot there is none. */
  lemma {:induction false} ExtensionIsBehindTheLastDot(stem: string, end: string)
    requires '.' !in end
    ensures Extension(stem + "." + end) == "." + Lowered(end) && Extension(end) == ""
    decreases |end|
  {
    NoDotNoExtension(end);
    var path := stem + "." + end;
    if end == "" {
      assert path == stem + ".";
    } else {
      var front := end[..|end| - 1];
      assert end == front + [end[|end| - 1]];
      ExtensionIsBehindTheLastDot(stem, front);
      LoweredPush(front, end[|end| - 1]);
      assert path[..|path| - 1] == stem + "." + front;
    }
  }

  // --- where an output comes from, told by the history alone ---

  datatype Source = Source(task: TaskId, file: Found)

  function SourcesOf(task: TaskId, found: seq<Found>): seq<Source> {
    seq(|found|, i requires 0 <= i < |found| => Source(task, found[i]))
  }

  // All files ever found, in order. The n-th became output n.
  function Sources(ops: seq<Op>): seq<Source> {
    if ops == [] then []
    else
      var op := ops[|ops| - 1];
      Sources(ops[..|ops| - 1]) + (if op.Collect? then SourcesOf(op.task, op.found) else [])
  }

  // Found, and its task not deleted since.
  predicate Survives(ops: seq<Op>, o: OutputId) {
    o < |Sources(ops)| && ops != [] &&
    (var front, op := ops[..|ops| - 1], ops[|ops| - 1];
      o >= |Sources(front)| || (Survives(front, o) && !(op.Delete? && Sources(front)[o].task in op.tasks)))
  }

  // --- what every history keeps ---

  ghost predicate OutputsFrom(t: Tables, sources: seq<Source>) {
    && t.nextId == |sources|
    && forall o :: o in t.outputs ==> o < |sources| && t.outputs[o] == RowOf(sources[o].task, sources[o].file)
  }

  // Paths lead to outputs of files that were found there.
  ghost predicate PathsFrom(files: map<Path, OutputId>, sources: seq<Source>) {
    forall q :: q in files ==> files[q] < |sources| && sources[files[q]].file.path == q
  }

  ghost predicate ManifestsFrom(t: Tables, sources: seq<Source>) {
    PathsFrom(t.files, sources) && forall i :: 0 <= i < |t.versions| ==> PathsFrom(t.versions[i].manifest, sources)
  }

  ghost predicate FoundAt(sources: seq<Source>, q: Path, bytes: seq<Byte>) {
    exists o: OutputId :: o < |sources| && sources[o].file.path == q && Holds(sources[o].file, bytes)
  }

  ghost predicate RepoFrom(repo: map<Path, seq<Byte>>, sources: seq<Source>) {
    forall q :: q in repo ==> FoundAt(sources, q, repo[q])
  }

  ghost predicate AllFrom(t: Tables, sources: seq<Source>) {
    OutputsFrom(t, sources) && ManifestsFrom(t, sources) && RepoFrom(t.repo, sources)
  }

  lemma {:induction false} CollectFrom(t: Tables, sources: seq<Source>, task: TaskId, found: seq<Found>)
    requires OutputsFrom(t, sources)
    ensures var u := WithOutputs(t, task, found);
      && OutputsFrom(u, sources + SourcesOf(task, found)) && u.files == t.files && u.versions == t.versions && u.repo == t.repo
      && (forall o :: o in u.outputs <==> o in t.outputs || |sources| <= o < |sources| + |found|)
    decreases |found|
  {
    if found == [] {
      assert sources + SourcesOf(task, found) == sources;
    } else {
      var front := found[..|found| - 1];
      CollectFrom(t, sources, task, front);
      assert SourcesOf(task, found) == SourcesOf(task, front) + [Source(task, found[|found| - 1])];
      OneMoreFrom(WithOutputs(t, task, front), sources + SourcesOf(task, front), task, found[|found| - 1]);
      assert sources + SourcesOf(task, found) == (sources + SourcesOf(task, front)) + [Source(task, found[|found| - 1])];
    }
  }

  lemma OneMoreFrom(t: Tables, sources: seq<Source>, task: TaskId, f: Found)
    requires OutputsFrom(t, sources)
    ensures OutputsFrom(t.(nextId := t.nextId + 1, outputs := t.outputs[t.nextId := RowOf(task, f)]), sources + [Source(task, f)])
  {
  }

  lemma MoreSources(t: Tables, sources: seq<Source>, more: seq<Source>)
    requires ManifestsFrom(t, sources) && RepoFrom(t.repo, sources)
    ensures ManifestsFrom(t, sources + more) && RepoFrom(t.repo, sources + more)
  {
    forall q | q in t.repo
      ensures FoundAt(sources + more, q, t.repo[q])
    {
      var o: OutputId :| o < |sources| && sources[o].file.path == q && Holds(sources[o].file, t.repo[q]);
      assert (sources + more)[o] == sources[o];
    }
  }

  lemma CutFrom(t: Tables, sources: seq<Source>, task: Option<TaskId>, files: map<Path, OutputId>)
    requires AllFrom(t, sources) && PathsFrom(files, sources)
    ensures AllFrom(Cut(t, task, files), sources)
  {
  }

  lemma SnapshotFrom(t: Tables, sources: seq<Source>, task: TaskId, rows: seq<OutputId>)
    requires AllFrom(t, sources) && Known(t, rows)
    ensures AllFrom(Snapshotted(t, task, rows).0, sources)
  {
    OverridesKnown(t, rows);
    CutFrom(t, sources, Some(task), t.files + Overrides(t, rows));
  }

  lemma RestoreFrom(t: Tables, sources: seq<Source>, no: int)
    requires AllFrom(t, sources)
    ensures AllFrom(Restored(t, no).0, sources)
  {
    var v := Find(t.versions, no);
    if v.Some? {
      assert PathsFrom(v.value.manifest, sources);
      CutFrom(t, sources, v.value.task, v.value.manifest);
    }
  }

  // What is read through a manifest are files found at its paths.
  lemma ReadFrom(t: Tables, sources: seq<Source>, files: map<Path, OutputId>)
    requires OutputsFrom(t, sources) && PathsFrom(files, sources) && AllLive(t, files)
    ensures forall q :: q in files ==> files[q] < |sources| && Holds(sources[files[q]].file, BytesOf(t, files)[q])
    ensures RepoFrom(BytesOf(t, files), sources)
  {
    forall q | q in files
      ensures Holds(sources[files[q]].file, BytesOf(t, files)[q])
      ensures FoundAt(sources, q, BytesOf(t, files)[q])
    {
      FileComesBackIff(sources[files[q]].task, sources[files[q]].file);
    }
  }

  lemma PushFrom(t: Tables, sources: seq<Source>, i: nat)
    requires AllFrom(t, sources)
    ensures AllFrom(PushedOne(t, i).0, sources)
  {
    if i < |t.versions| {
      assert PathsFrom(t.versions[i].manifest, sources);
      ReadFrom(t, sources, Live(t, t.versions[i].manifest));
    }
  }

  lemma {:induction false} AlwaysFrom(ops: seq<Op>)
    ensures AllFrom(After(EMPTY, ops), Sources(ops))
    decreases |ops|
  {
    if ops != [] {
      var front, op := ops[..|ops| - 1], ops[|ops| - 1];
      AlwaysFrom(front);
      OpFrom(After(EMPTY, front), Sources(front), op);
      assert !op.Collect? ==> Sources(front) + [] == Sources(front);
    }
  }

  lemma OpFrom(t: Tables, sources: seq<Source>, op: Op)
    requires AllFrom(t, sources)
    ensures AllFrom(Applied(t, op), if op.Collect? then sources + SourcesOf(op.task, op.found) else sources)
  {
    match op {
      case Collect(task, found) =>
        CollectFrom(t, sources, task, found);
        MoreSources(t, sources, SourcesOf(task, found));
      case Snapshot(task, rows) =>
        if IsListing(t, task, rows) {
          SnapshotFrom(t, sources, task, rows);
        }
      case Restore(no) => RestoreFrom(t, sources, no);
      case Delete(tasks) =>
      case Push(i) => PushFrom(t, sources, i);
    }
  }

  // --- which outputs are left ---

  lemma OpSurvivors(t: Tables, sources: seq<Source>, op: Op, o: OutputId)
    requires OutputsFrom(t, sources)
    ensures o in Applied(t, op).outputs <==>
      (o in t.outputs && !(op.Delete? && sources[o].task in op.tasks)) || (op.Collect? && |sources| <= o < |sources| + |op.found|)
  {
    match op {
      case Collect(task, found) => CollectFrom(t, sources, task, found);
      case _ =>
    }
  }

  /** After any history exactly those outputs exist whose file was found and whose task was not deleted since. */
  lemma {:induction false} OutputsThatSurvive(ops: seq<Op>, o: OutputId)
    ensures o in After(EMPTY, ops).outputs <==> Survives(ops, o)
    decreases |ops|
  {
    if ops != [] {
      var front, op := ops[..|ops| - 1], ops[|ops| - 1];
      OutputsThatSurvive(front, o);
      AlwaysFrom(front);
      OpSurvivors(After(EMPTY, front), Sources(front), op, o);
    }
  }

  // --- what is served ---

  // At each path of the manifest whose file survives, and nowhere else, that file is read.
  ghost predicate Serves(ops: seq<Op>, manifest: map<Path, OutputId>, served: map<Path, seq<Byte>>) {
    && (forall q :: q in served <==> q in manifest && Survives(ops, manifest[q]))
    && (forall q :: q in served ==>
          manifest[q] < |Sources(ops)| && Sources(ops)[manifest[q]].file.path == q && Holds(Sources(ops)[manifest[q]].file, served[q]))
  }

  lemma ManifestServes(ops: seq<Op>, manifest: map<Path, OutputId>)
    requires PathsFrom(manifest, Sources(ops))
    ensures var t := After(EMPTY, ops); Serves(ops, manifest, BytesOf(t, Live(t, manifest)))
  {
    var t := After(EMPTY, ops);
    AlwaysFrom(ops);
    forall q | q in manifest
      ensures manifest[q] in t.outputs <==> Survives(ops, manifest[q])
    {
      OutputsThatSurvive(ops, manifest[q]);
    }
    ReadFrom(t, Sources(ops), Live(t, manifest));
  }

  /**
   Replay with contents. After any history the current files and each version are what the history
   says, and what is read at a path is, byte for byte, the file that was found at that path by the
   collection behind the entry; files go with their tasks and in no other way, and whatever is in the
   repository was found at its path at some time.
   */
  lemma StoreServesWhatWasFound(ops: seq<Op>)
    ensures var t := After(EMPTY, ops); var (files, history) := Replay(Log(ops));
      && t.files == files && Serves(ops, files, BytesOf(t, Live(t, files)))
      && |t.versions| == |history|
      && (forall i :: 0 <= i < |history| ==> Serves(ops, history[i], BytesOf(t, Live(t, t.versions[i].manifest))))
      && RepoFrom(t.repo, Sources(ops))
  {
    var t := After(EMPTY, ops);
    AlwaysFrom(ops);
    VersionsReplayTheHistory(ops);
    ManifestServes(ops, t.files);
    forall i | 0 <= i < |t.versions|
      ensures Serves(ops, t.versions[i].manifest, BytesOf(t, Live(t, t.versions[i].manifest)))
    {
      ManifestServes(ops, t.versions[i].manifest);
    }
  }

  /** The snapshot of a task whose files have distinct paths serves all of them, with the contents in which they were found. */
  lemma SnapshotServesItsFiles(ops: seq<Op>, task: TaskId, rows: seq<OutputId>)
    requires IsListing(After(EMPTY, ops), task, rows) && DistinctPaths(After(EMPTY, ops), rows)
    ensures var t := After(EMPTY, ops + [Snapshot(task, rows)]);
      AllLive(t, t.files)
      && forall o: OutputId :: o < |Sources(ops)| && Sources(ops)[o].task == task && Survives(ops, o) ==>
           Sources(ops)[o].file.path in t.files && Holds(Sources(ops)[o].file, BytesOf(t, t.files)[Sources(ops)[o].file.path])
  {
    var before := After(EMPTY, ops);
    var t := After(EMPTY, ops + [Snapshot(task, rows)]);
    OneMore(EMPTY, ops, Snapshot(task, rows));
    DeployServesWhatPreviewShows(ops + [Snapshot(task, rows)]);
    SnapshotIgnoresRowOrder(before, task, rows, rows);
    AlwaysFrom(ops);
    forall o: OutputId | o < |Sources(ops)| && Sources(ops)[o].task == task && Survives(ops, o)
      ensures Sources(ops)[o].file.path in t.files && Holds(Sources(ops)[o].file, BytesOf(t, t.files)[Sources(ops)[o].file.path])
    {
      OutputsThatSurvive(ops, o);
      assert o in rows;
      FileComesBackIff(task, Sources(ops)[o].file);
    }
  }
}
