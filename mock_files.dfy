/** How the mock middleware builds its table (src/middleware/mock.js:37-58):
    the files under the watched directory are listed recursively, skipping
    every file whose path contains `_cache`, and the objects they export are
    merged in that order with `Object.assign`.

    The directory tree is given as a value (the order of `entries` is the
    order `readdirSync` reports), a path is `dir + "/" + name`, and loading
    a file is a lookup in `modules`: a file missing there is one whose
    `require` throws. */
module MockFiles {
  import opened Wrappers
  import opened Strings
  import opened OrderedMaps
  import opened JsValues

  datatype Dir = Dir(entries: seq<Entry>)
  datatype Entry = File(name: string) | Subdir(name: string, dir: Dir)

  /** A mock file's export: `"METHOD path"` keys to static values or responder functions. */
  type MockTable = OrderedMap<Value>

  const CacheMarker := "_cache"

  /** `PATH.resolve(dir, name)` for an absolute `dir`. */
  function JoinPath(dir: string, name: string): (p: string)
    ensures |p| > |dir|
  {
    dir + "/" + name
  }

  /** Every file below `d`, depth first, each directory's files in place of the directory. */
  function AllFiles(path: string, d: Dir): seq<string>
    decreases d, 1
  {
    AllFilesOf(path, d, |d.entries|)
  }

  function AllFilesOf(path: string, d: Dir, n: nat): seq<string>
    requires n <= |d.entries|
    decreases d, 0, n
  {
    if n == 0 then []
    else
      var e := d.entries[n - 1];
      AllFilesOf(path, d, n - 1) +
      match e
      case File(name) => [JoinPath(path, name)]
      case Subdir(name, sub) => AllFiles(JoinPath(path, name), sub)
  }

  predicate NotCache(p: string) {
    !Contains(p, CacheMarker)
  }

  function FilterCache(ps: seq<string>): (r: seq<string>)
    ensures forall p :: p in r ==> p in ps && NotCache(p)
    ensures forall p :: p in ps && NotCache(p) ==> p in r
  {
    if ps == [] then []
    else FilterCache(ps[..|ps| - 1]) + (if NotCache(ps[|ps| - 1]) then [ps[|ps| - 1]] else [])
  }

  lemma {:induction false} FilterCacheAppend(a: seq<string>, b: seq<string>)
    ensures FilterCache(a + b) == FilterCache(a) + FilterCache(b)
    decreases |b|
  {
    if b == [] {
      assert a + b == a;
    } else {
      assert (a + b)[..|a + b| - 1] == a + b[..|b| - 1];
      assert (a + b)[|a + b| - 1] == b[|b| - 1];
      FilterCacheAppend(a, b[..|b| - 1]);
    }
  }

  /** The list `getWatchFile` returns for the directory `d` at `path`. */
  function WatchFiles(path: string, d: Dir): seq<string>
    decreases d, 1
  {
    WatchFilesOf(path, d, |d.entries|)
  }

  function WatchFilesOf(path: string, d: Dir, n: nat): seq<string>
    requires n <= |d.entries|
    decreases d, 0, n
  {
    if n == 0 then []
    else
      var e := d.entries[n - 1];
      WatchFilesOf(path, d, n - 1) +
      match e
      case File(name) => if NotCache(JoinPath(path, name)) then [JoinPath(path, name)] else []
      case Subdir(name, sub) => WatchFiles(JoinPath(path, name), sub)
  }

  /** The listing is exactly the full depth-first file list with the `_cache`
      paths taken out: nothing is reordered, nothing else is dropped. */
  lemma {:induction false} WatchFilesAreFilteredFiles(path: string, d: Dir)
    ensures WatchFiles(path, d) == FilterCache(AllFiles(path, d))
    decreases d, 1
  {
    WatchFilesOfAreFiltered(path, d, |d.entries|);
  }

  lemma {:induction false} WatchFilesOfAreFiltered(path: string, d: Dir, n: nat)
    requires n <= |d.entries|
    ensures WatchFilesOf(path, d, n) == FilterCache(AllFilesOf(path, d, n))
    decreases d, 0, n
  {
    if n > 0 {
      WatchFilesOfAreFiltered(path, d, n - 1);
      var e := d.entries[n - 1];
      match e
      case File(name) =>
        var p := JoinPath(path, name);
        FilterCacheAppend(AllFilesOf(path, d, n - 1), [p]);
        assert FilterCache([p]) == FilterCache([]) + (if NotCache(p) then [p] else []);
      case Subdir(name, sub) =>
        WatchFilesAreFilteredFiles(JoinPath(path, name), sub);
        FilterCacheAppend(AllFilesOf(path, d, n - 1), AllFiles(JoinPath(path, name), sub));
    }
  }

  /** No listed path contains `_cache`, every listed path lies under the
      watched directory and is non-empty, so the constructor's
      "Mocker file does not exist" check never fires. */
  lemma WatchFilesClean(path: string, d: Dir)
    ensures forall p :: p in WatchFiles(path, d) ==> NotCache(p) && p != []
  {
    WatchFilesAreFilteredFiles(path, d);
    AllFilesNonEmpty(path, d);
  }

  lemma {:induction false} AllFilesNonEmpty(path: string, d: Dir)
    ensures forall p :: p in AllFiles(path, d) ==> |p| > |path|
    decreases d, 1
  {
    AllFilesOfNonEmpty(path, d, |d.entries|);
  }

  lemma {:induction false} AllFilesOfNonEmpty(path: string, d: Dir, n: nat)
    requires n <= |d.entries|
    ensures forall p :: p in AllFilesOf(path, d, n) ==> |p| > |path|
    decreases d, 0, n
  {
    if n > 0 {
      AllFilesOfNonEmpty(path, d, n - 1);
      match d.entries[n - 1]
      case File(name) =>
      case Subdir(name, sub) => AllFilesNonEmpty(JoinPath(path, name), sub);
    }
  }

  /** `getWatchFile(watchPath)`: a loop over the directory's entries that
      recurses into subdirectories and splices their files in place. */
  method GetWatchFile(watchPath: string, d: Dir) returns (files: seq<string>)
    ensures files == WatchFiles(watchPath, d)
    decreases d
  {
    files := [];
    var i := 0;
    while i < |d.entries|
      invariant 0 <= i <= |d.entries|
      invariant files == WatchFilesOf(watchPath, d, i)
    {
      var e := d.entries[i];
      var filePath := JoinPath(watchPath, e.name);
      if e.Subdir? {
        var test := GetWatchFile(filePath, e.dir);
        files := files + test;
      } else if NotCache(filePath) {
        files := files + [filePath];
      }
      i := i + 1;
    }
  }

  /** Every exported object is a well-formed object. */
  ghost predicate ValidModules(modules: map<string, MockTable>) {
    forall f :: f in modules ==> modules[f].Valid()
  }

  /** `files.reduce((m, f) => Object.assign(m, require(f)), {})`; `None` when a `require` throws. */
  function Merge(files: seq<string>, modules: map<string, MockTable>): (r: Option<MockTable>)
    requires ValidModules(modules)
    ensures r.Some? ==> r.value.Valid()
    ensures r.Some? <==> forall f :: f in files ==> f in modules
  {
    if files == [] then Some(Empty())
    else
      var prev := Merge(files[..|files| - 1], modules);
      var f := files[|files| - 1];
      assert files == files[..|files| - 1] + [f];
      if prev.None? || f !in modules then None
      else
        AssignSpec(prev.value, modules[f]);
        Some(Assign(prev.value, modules[f]))
  }

  /** Object.assign keeps a key where it was first inserted: the table built
      from a prefix of the file list is a prefix of the full table. */
  lemma {:induction false} MergeKeepsPositions(files: seq<string>, n: nat, modules: map<string, MockTable>)
    requires ValidModules(modules) && n <= |files|
    requires Merge(files, modules).Some?
    ensures Merge(files[..n], modules).Some?
    ensures |Merge(files[..n], modules).value.keys| <= |Merge(files, modules).value.keys|
    ensures Merge(files, modules).value.keys[..|Merge(files[..n], modules).value.keys|] == Merge(files[..n], modules).value.keys
    decreases |files|
  {
    if n < |files| {
      var init := files[..|files| - 1];
      assert files == init + [files[|files| - 1]];
      assert files[..n] == init[..n];
      MergeKeepsPositions(init, n, modules);
      AssignSpec(Merge(init, modules).value, modules[files[|files| - 1]]);
    } else {
      assert files[..n] == files;
    }
  }

  /** A key's value is the one exported by the LAST file that exports it,
      and the table has exactly the keys some file exports. */
  lemma {:induction false} MergeLastWins(files: seq<string>, modules: map<string, MockTable>, k: string, i: nat)
    requires ValidModules(modules)
    requires Merge(files, modules).Some?
    requires i < |files| && k in modules[files[i]].values
    requires forall j :: i < j < |files| ==> k !in modules[files[j]].values
    ensures k in Merge(files, modules).value.values
    ensures Merge(files, modules).value.values[k] == modules[files[i]].values[k]
    decreases |files|
  {
    var init := files[..|files| - 1];
    var f := files[|files| - 1];
    assert files == init + [f];
    AssignSpec(Merge(init, modules).value, modules[f]);
    if i < |files| - 1 {
      MergeLastWins(init, modules, k, i);
    }
  }

  lemma {:induction false} MergeKeys(files: seq<string>, modules: map<string, MockTable>, k: string)
    requires ValidModules(modules)
    requires Merge(files, modules).Some?
    ensures k in Merge(files, modules).value.values <==> exists i :: 0 <= i < |files| && k in modules[files[i]].values
    decreases |files|
  {
    if files != [] {
      var init := files[..|files| - 1];
      var f := files[|files| - 1];
      assert files == init + [f];
      AssignSpec(Merge(init, modules).value, modules[f]);
      MergeKeys(init, modules, k);
      if k in Merge(files, modules).value.values && k !in modules[f].values {
        var i :| 0 <= i < |init| && k in modules[init[i]].values;
        assert files[i] == init[i];
      }
      if exists i :: 0 <= i < |files| && k in modules[files[i]].values {
        var i :| 0 <= i < |files| && k in modules[files[i]].values;
        if i < |init| {
          assert init[i] == files[i];
        }
      }
    }
  }

  /** Loading depends only on the listed files: a file that appears or
      changes outside the list (an `add` event for a new file) does not
      change the merged table. */
  lemma {:induction false} MergeReadsOnlyListedFiles(files: seq<string>, m1: map<string, MockTable>, m2: map<string, MockTable>)
    requires ValidModules(m1) && ValidModules(m2)
    requires forall f :: f in files ==> (f in m1 <==> f in m2) && (f in m1 ==> m1[f] == m2[f])
    ensures Merge(files, m1) == Merge(files, m2)
    decreases |files|
  {
    if files != [] {
      var init := files[..|files| - 1];
      assert files == init + [files[|files| - 1]];
      MergeReadsOnlyListedFiles(init, m1, m2);
    }
  }

  /** `getConfig()`: the reduce loop over the file list. */
  method GetConfig(files: seq<string>, modules: map<string, MockTable>) returns (r: Option<MockTable>)
    requires ValidModules(modules)
    ensures r == Merge(files, modules)
  {
    var mocker: MockTable := Empty();
    var i := 0;
    while i < |files|
      invariant 0 <= i <= |files|
      invariant Merge(files[..i], modules) == Some(mocker)
    {
      assert files[..i + 1][..i] == files[..i];
      if files[i] !in modules {
        assert files[i] in files[..i + 1];
        NoneExtends(files, i + 1, modules);
        return None;
      }
      mocker := Assign(mocker, modules[files[i]]);
      i := i + 1;
    }
    assert files[..i] == files;
    r := Some(mocker);
  }

  lemma NoneExtends(files: seq<string>, n: nat, modules: map<string, MockTable>)
    requires ValidModules(modules) && n <= |files|
    requires Merge(files[..n], modules).None?
    ensures Merge(files, modules).None?
  {
    var f :| f in files[..n] && f !in modules;
  }
}
