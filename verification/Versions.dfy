/**
 The version store: canonical files and frozen manifests of one project, the snapshot cut after a
 task (backend/app/services/versioning.py), restore, push and backfill
 (backend/app/services/github_service.py), and the two reads that serve the files, deployment
 (backend/app/services/deploy_service.py) and preview (backend/app/services/preview.py).
 */
module Versions {
  import opened Common
  import opened Utf8

  type Path = string
  type OutputId = nat
  type TaskId = nat

  datatype Output = Output(task: TaskId, path: Path, content: Option<string>, contentBytes: Option<seq<Byte>>)
  datatype Version = Version(no: int, task: Option<TaskId>, manifest: map<Path, OutputId>, pushed: bool)

  // Output ids are drawn afresh and never used again.
  datatype Tables = Tables(
    nextId: OutputId, outputs: map<OutputId, Output>, files: map<Path, OutputId>, versions: seq<Version>,
    repo: map<Path, seq<Byte>>)

  const EMPTY := Tables(0, map[], map[], [], map[])

  class Project {
    var nextId: OutputId
    var outputs: map<OutputId, Output>
    var files: map<Path, OutputId>
    var versions: seq<Version>
    var repo: map<Path, seq<Byte>>

    constructor ()
      ensures View() == EMPTY
    {
      nextId, outputs, files, versions, repo := 0, map[], map[], [], map[];
    }

    function View(): Tables
      reads this
    {
      Tables(nextId, outputs, files, versions, repo)
    }
  }

  // --- bytes ---

  // How the file store reads a row, and how the preview does.
  function GetBytes(o: Output): seq<Byte> {
    if o.contentBytes.Some? then o.contentBytes.value
    else if o.content.Some? then Encoded(o.content.value)
    else []
  }

  function PreviewBytes(o: Output): seq<Byte> {
    if o.contentBytes.Some? then o.contentBytes.value else Encoded(o.content.GetOr(""))
  }

  // --- collecting outputs ---

  // A file found in the sandbox.
  datatype Found = Found(path: Path, data: seq<Byte>)

  const TEXT_EXTENSIONS := {
    ".py", ".js", ".jsx", ".ts", ".tsx", ".md", ".markdown", ".txt", ".html", ".css",
    ".json", ".yaml", ".yml", ".toml", ".sh", ".env", ".sql", ".xml", ".svg", ".cfg", ".ini"}
  const BINARY_EXTENSIONS := {".png", ".jpg", ".jpeg", ".gif", ".webp", ".pdf", ".zip", ".ico"}

  function Lower(c: char): char {
    if 'A' <= c <= 'Z' then (c as int + 32) as char else c
  }

  // From the last dot on, in lower case; empty without a dot.
  function Extension(path: Path): string {
    if path == "" then ""
    else
      var last := path[|path| - 1];
      if last == '.' then "."
      else
        var front := Extension(path[..|path| - 1]);
        if front == "" then "" else front + [Lower(last)]
  }

  // By its name, or else if it can be decoded.
  predicate IsText(f: Found) {
    || Extension(f.path) in TEXT_EXTENSIONS
    || (Extension(f.path) !in BINARY_EXTENSIONS && Decoded(f.data).Some?)
  }

  function RowOf(task: TaskId, f: Found): Output {
    if IsText(f) then Output(task, f.path, Some(Mended(f.data)), None)
    else Output(task, f.path, None, Some(f.data))
  }

  function WithOutputs(t: Tables, task: TaskId, found: seq<Found>): Tables {
    if found == [] then t
    else
      var u := WithOutputs(t, task, found[..|found| - 1]);
      u.(nextId := u.nextId + 1, outputs := u.outputs[u.nextId := RowOf(task, found[|found| - 1])])
  }

  method CollectOutputs(p: Project, task: TaskId, found: seq<Found>)
    modifies p`nextId, p`outputs
    ensures p.View() == WithOutputs(old(p.View()), task, found)
  {
    var i := 0;
    while i < |found|
      invariant i <= |found|
      invariant p.View() == WithOutputs(old(p.View()), task, found[..i])
    {
      p.outputs := p.outputs[p.nextId := RowOf(task, found[i])];
      p.nextId := p.nextId + 1;
      assert found[..i + 1][..i] == found[..i];
      i := i + 1;
    }
    assert found[..i] == found;
  }

  // --- the snapshot ---

  // The rows of a task as its query returns them, in no particular order.
  ghost predicate IsListing(t: Tables, task: TaskId, rows: seq<OutputId>) {
    && (forall i, j :: 0 <= i < j < |rows| ==> rows[i] != rows[j])
    && (forall o :: o in rows <==> o in t.outputs && t.outputs[o].task == task)
  }

  predicate Known(t: Tables, rows: seq<OutputId>) {
    forall o :: o in rows ==> o in t.outputs
  }

  predicate PathTwice(t: Tables, rows: seq<OutputId>)
    requires Known(t, rows)
  {
    exists i, j | 0 <= i < j < |rows| :: t.outputs[rows[i]].path == t.outputs[rows[j]].path && t.outputs[rows[i]].path !in t.files
  }

  // The last row of each path.
  function Overrides(t: Tables, rows: seq<OutputId>): map<Path, OutputId>
    requires Known(t, rows)
  {
    if rows == [] then map[]
    else
      var last := rows[|rows| - 1];
      Overrides(t, rows[..|rows| - 1])[t.outputs[last].path := last]
  }

  function MaxNo(versions: seq<Version>): int {
    if versions == [] then 0
    else
      var rest := MaxNo(versions[..|versions| - 1]);
      if versions[|versions| - 1].no > rest then versions[|versions| - 1].no else rest
  }

  function Cut(t: Tables, task: Option<TaskId>, files: map<Path, OutputId>): Tables {
    t.(files := files, versions := t.versions + [Version(MaxNo(t.versions) + 1, task, files, false)])
  }

  function Snapshotted(t: Tables, task: TaskId, rows: seq<OutputId>): (Tables, Option<int>)
    requires Known(t, rows)
  {
    if rows == [] || PathTwice(t, rows) then (t, None)
    else (Cut(t, Some(task), t.files + Overrides(t, rows)), Some(MaxNo(t.versions) + 1))
  }

  // A path lookup sees the flushed rows only, so a new path is inserted once per row that has it,
  // and the flush refuses a path inserted twice.
  method SnapshotVersion(p: Project, task: TaskId, rows: seq<OutputId>) returns (no: Option<int>)
    requires Known(p.View(), rows)
    modifies p`files, p`versions
    ensures (p.View(), no) == Snapshotted(old(p.View()), task, rows)
  {
    if rows == [] {
      return None;
    }
    ghost var t := p.View();
    var staged: map<Path, OutputId> := p.files;
    var inserted: set<Path> := {};
    var clash := false;
    var i := 0;
    while i < |rows|
      invariant i <= |rows| && p.View() == t && Midway(t, rows[..i], staged, inserted, clash)
    {
      var path := p.outputs[rows[i]].path;
      OneMoreRow(t, rows, i, staged, inserted, clash);
      if path !in p.files {
        clash := clash || path in inserted;
        inserted := inserted + {path};
      }
      staged := staged[path := rows[i]];
      i := i + 1;
    }
    assert rows[..i] == rows;
    if clash {
      return None;
    }
    p.files := staged;
    no := Some(MaxNo(p.versions) + 1);
    p.versions := p.versions + [Version(MaxNo(p.versions) + 1, Some(task), p.files, false)];
  }

  // What the loop over the rows has put together.
  ghost predicate Midway(t: Tables, rows: seq<OutputId>, staged: map<Path, OutputId>, inserted: set<Path>, clash: bool) {
    && Known(t, rows) && staged == t.files + Overrides(t, rows) && inserted == NewPaths(t, rows)
    && (clash <==> PathTwice(t, rows))
  }

  function NewPaths(t: Tables, rows: seq<OutputId>): (paths: set<Path>)
    requires Known(t, rows)
    ensures forall q :: q in paths <==> q !in t.files && exists k :: 0 <= k < |rows| && t.outputs[rows[k]].path == q
  {
    if rows == [] then {}
    else
      var path := t.outputs[rows[|rows| - 1]].path;
      var before := NewPaths(t, rows[..|rows| - 1]);
      if path in t.files then before else before + {path}
  }

  lemma OneMoreRow(t: Tables, rows: seq<OutputId>, i: nat, staged: map<Path, OutputId>, inserted: set<Path>, clash: bool)
    requires i < |rows| && Known(t, rows) && Midway(t, rows[..i], staged, inserted, clash)
    ensures var path := t.outputs[rows[i]].path; var isNew := path !in t.files;
      Midway(t, rows[..i + 1], staged[path := rows[i]], if isNew then inserted + {path} else inserted, clash || (isNew && path in inserted))
  {
    RowAppended(t, rows[..i], rows[i], staged, inserted, clash);
    assert rows[..i + 1] == rows[..i] + [rows[i]];
  }

  lemma RowAppended(t: Tables, short: seq<OutputId>, o: OutputId, staged: map<Path, OutputId>, inserted: set<Path>, clash: bool)
    requires o in t.outputs && Midway(t, short, staged, inserted, clash)
    ensures var path := t.outputs[o].path; var isNew := path !in t.files;
      Midway(t, short + [o], staged[path := o], if isNew then inserted + {path} else inserted, clash || (isNew && path in inserted))
  {
    PathsAppended(t, short, o);
    LaidOverLast(t.files, Overrides(t, short), t.outputs[o].path, o);
    TwiceInLonger(t, short, o);
  }

  lemma LaidOverLast(files: map<Path, OutputId>, over: map<Path, OutputId>, q: Path, o: OutputId)
    ensures files + over[q := o] == (files + over)[q := o]
  {
  }

  lemma PathsAppended(t: Tables, short: seq<OutputId>, o: OutputId)
    requires o in t.outputs && Known(t, short)
    ensures var path := t.outputs[o].path;
      && Known(t, short + [o]) && Overrides(t, short + [o]) == Overrides(t, short)[path := o]
      && NewPaths(t, short + [o]) == if path in t.files then NewPaths(t, short) else NewPaths(t, short) + {path}
  {
    assert (short + [o])[..|short|] == short;
  }

  lemma TwiceInLonger(t: Tables, short: seq<OutputId>, o: OutputId)
    requires Known(t, short) && o in t.outputs && Known(t, short + [o])
    ensures var path := t.outputs[o].path;
      PathTwice(t, short + [o]) <==> PathTwice(t, short) || (path !in t.files && path in NewPaths(t, short))
  {
    var long := short + [o];
    var path := t.outputs[o].path;
    if PathTwice(t, short) {
      var a, b :| 0 <= a < b < |short| && t.outputs[short[a]].path == t.outputs[short[b]].path && t.outputs[short[a]].path !in t.files;
      assert long[a] == short[a] && long[b] == short[b];
    }
    if path !in t.files && path in NewPaths(t, short) {
      var k :| 0 <= k < |short| && t.outputs[short[k]].path == path;
      assert long[k] == short[k] && long[|short|] == o;
    }
    if PathTwice(t, long) {
      var a, b :| 0 <= a < b < |long| && t.outputs[long[a]].path == t.outputs[long[b]].path && t.outputs[long[a]].path !in t.files;
      assert long[a] == short[a];
      if b < |short| {
        assert long[b] == short[b];
      }
    }
  }

  // --- restore ---

  datatype RestoreError = VersionNotFound | ForeignKey

  function Find(versions: seq<Version>, no: int): (v: Option<Version>)
    ensures v.Some? ==> v.value in versions && v.value.no == no
    ensures v.None? <==> forall x :: x in versions ==> x.no != no
  {
    if versions == [] then None
    else if versions[0].no == no then Some(versions[0])
    else
      assert versions == [versions[0]] + versions[1..];
      Find(versions[1..], no)
  }

  predicate AllLive(t: Tables, manifest: map<Path, OutputId>) {
    forall q :: q in manifest ==> manifest[q] in t.outputs
  }

  // A file row must point to an existing output; if one does not, the request fails as a whole.
  function Restored(t: Tables, no: int): (Tables, Result<int, RestoreError>) {
    var target := Find(t.versions, no);
    if target.None? then (t, Failure(VersionNotFound))
    else if !AllLive(t, target.value.manifest) then (t, Failure(ForeignKey))
    else (Cut(t, target.value.task, target.value.manifest), Success(MaxNo(t.versions) + 1))
  }

  method RestoreVersion(p: Project, no: int) returns (res: Result<int, RestoreError>)
    modifies p`files, p`versions
    ensures (p.View(), res) == Restored(old(p.View()), no)
  {
    var target := Find(p.versions, no);
    if target.None? {
      return Failure(VersionNotFound);
    }
    var before := p.files;
    p.files := map[];
    p.files := RowsOf(target.value.manifest);
    if !forall q | q in p.files :: p.files[q] in p.outputs {
      p.files := before;
      return Failure(ForeignKey);
    }
    res := Success(MaxNo(p.versions) + 1);
    p.versions := p.versions + [Version(MaxNo(p.versions) + 1, target.value.task, p.files, false)];
  }

  // One file row per entry of the manifest.
  method RowsOf(manifest: map<Path, OutputId>) returns (files: map<Path, OutputId>)
    ensures files == manifest
  {
    files := map[];
    var left := manifest.Keys;
    while left != {}
      invariant left <= manifest.Keys
      invariant files == map q | q in manifest.Keys - left :: manifest[q]
      decreases |left|
    {
      var path :| path in left;
      files := files[path := manifest[path]];
      left := left - {path};
    }
  }

  // --- deleting tasks (also what deleting an agent comes to): outputs and file rows go with them ---

  function OutputsOf(t: Tables, tasks: set<TaskId>): set<OutputId> {
    set o | o in t.outputs && t.outputs[o].task in tasks
  }

  function Without(files: map<Path, OutputId>, gone: set<OutputId>): map<Path, OutputId> {
    map q | q in files && files[q] !in gone :: files[q]
  }

  function Unlinked(v: Version, tasks: set<TaskId>): Version {
    if v.task.Some? && v.task.value in tasks then v.(task := None) else v
  }

  function Deleted(t: Tables, tasks: set<TaskId>): Tables {
    var gone := OutputsOf(t, tasks);
    t.(outputs := t.outputs - gone, files := Without(t.files, gone),
       versions := seq(|t.versions|, i requires 0 <= i < |t.versions| => Unlinked(t.versions[i], tasks)))
  }

  // --- the two reads ---

  function Live(t: Tables, manifest: map<Path, OutputId>): map<Path, OutputId> {
    map q | q in manifest && manifest[q] in t.outputs :: manifest[q]
  }

  function BytesOf(t: Tables, files: map<Path, OutputId>): map<Path, seq<Byte>>
    requires AllLive(t, files)
  {
    map q | q in files :: GetBytes(t.outputs[files[q]])
  }

  // The row with the highest number.
  function Latest(versions: seq<Version>): (v: Option<Version>)
    ensures v.None? <==> versions == []
    ensures v.Some? ==> v.value in versions
  {
    if versions == [] then None
    else
      var rest := Latest(versions[..|versions| - 1]);
      var last := versions[|versions| - 1];
      if rest.Some? && rest.value.no >= last.no then rest else Some(last)
  }

  method LatestVersionFiles(p: Project) returns (no: Option<int>, files: map<Path, seq<Byte>>)
    ensures Latest(p.versions).None? ==> no.None? && files == map[]
    ensures Latest(p.versions).Some? ==>
              var manifest := Latest(p.versions).value.manifest;
              no == Some(Latest(p.versions).value.no) && files == BytesOf(p.View(), Live(p.View(), manifest))
  {
    var v := Latest(p.versions);
    files := map[];
    if v.None? {
      return None, files;
    }
    files := ReadManifest(p, v.value.manifest);
    no := Some(v.value.no);
  }

  method ReadManifest(p: Project, manifest: map<Path, OutputId>) returns (files: map<Path, seq<Byte>>)
    ensures files == BytesOf(p.View(), Live(p.View(), manifest))
  {
    files := map[];
    var left := manifest.Keys;
    while left != {}
      invariant left <= manifest.Keys
      invariant files == map q | q in manifest.Keys - left && manifest[q] in p.outputs :: GetBytes(p.outputs[manifest[q]])
      decreases |left|
    {
      var path :| path in left;
      if manifest[path] in p.outputs {
        files := files[path := GetBytes(p.outputs[manifest[path]])];
      }
      left := left - {path};
    }
  }

  // The preview's rows: one per file, in the order the join returns them.
  method CurrentFiles(p: Project, order: seq<Path>) returns (files: seq<(Path, seq<Byte>)>)
    requires AllLive(p.View(), p.files)
    requires forall q :: q in order <==> q in p.files
    requires forall i, j :: 0 <= i < j < |order| ==> order[i] != order[j]
    ensures |files| == |order| && forall i :: 0 <= i < |files| ==> files[i].0 == order[i]
    ensures forall i :: 0 <= i < |files| ==>
      files[i].0 in BytesOf(p.View(), p.files) && files[i].1 == BytesOf(p.View(), p.files)[files[i].0]
  {
    files := [];
    var i := 0;
    while i < |order|
      invariant i <= |order| && |files| == i
      invariant forall k :: 0 <= k < i ==> files[k].0 == order[k] && order[k] in p.files && files[k].1 == GetBytes(p.outputs[p.files[order[k]]])
    {
      var out := p.outputs[p.files[order[i]]];
      var data := if out.contentBytes.Some? then out.contentBytes.value else Encoded(out.content.GetOr(""));
      assert data == GetBytes(out) by { SameBytes(out); }
      files := files + [(order[i], data)];
      i := i + 1;
    }
  }

  lemma SameBytes(o: Output)
    ensures PreviewBytes(o) == GetBytes(o)
  {
  }

  // --- pushes ---

  datatype PushResult = Pushed | NotFound | AlreadyPushed | Nothing

  function PushedOne(t: Tables, i: nat): (Tables, PushResult) {
    if i >= |t.versions| then (t, NotFound)
    else if t.versions[i].pushed then (t, AlreadyPushed)
    else
      var files := Live(t, t.versions[i].manifest);
      if files == map[] then (t, Nothing)
      else (t.(repo := t.repo + BytesOf(t, files), versions := t.versions[i := t.versions[i].(pushed := true)]), Pushed)
  }

  // A push to a linked repository; the commit is laid over the branch's tree.
  method PushVersionSync(p: Project, i: nat) returns (res: PushResult)
    modifies p`repo, p`versions
    ensures (p.View(), res) == PushedOne(old(p.View()), i)
  {
    if i >= |p.versions| {
      return NotFound;
    }
    if p.versions[i].pushed {
      return AlreadyPushed;
    }
    var files := ReadManifest(p, p.versions[i].manifest);
    ghost var live := Live(p.View(), p.versions[i].manifest);
    assert files.Keys == live.Keys;
    assert files == map[] <==> live == map[];
    if files == map[] {
      return Nothing;
    }
    p.repo := p.repo + files;
    p.versions := p.versions[i := p.versions[i].(pushed := true)];
    return Pushed;
  }

  function Backfilled(t: Tables, upTo: nat): (Tables, nat)
    requires upTo <= |t.versions|
    ensures |Backfilled(t, upTo).0.versions| == |t.versions|
  {
    if upTo == 0 then (t, 0)
    else
      var (u, n) := Backfilled(t, upTo - 1);
      var (w, res) := PushedOne(u, upTo - 1);
      (w, n + if res.Pushed? then 1 else 0)
  }

  method Backfill(p: Project) returns (n: nat)
    modifies p`repo, p`versions
    ensures (p.View(), n) == Backfilled(old(p.View()), |old(p.versions)|)
  {
    n := 0;
    var i := 0;
    while i < |p.versions|
      invariant i <= |p.versions| == |old(p.versions)|
      invariant (p.View(), n) == Backfilled(old(p.View()), i)
    {
      if !p.versions[i].pushed {
        var res := PushVersionSync(p, i);
        if res.Pushed? {
          n := n + 1;
        }
      }
      i := i + 1;
    }
  }
}
