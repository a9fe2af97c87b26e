/** The client of the remote mock repository (src/rapClient.js): it fetches
    the repository, reconciles its interfaces with the local cache file, and
    fills in the mock payloads that are missing.

    The network is given as a `Remote`: the token the token request returns,
    the repository reply, and the payload template of each interface id
    (an id missing there is a request that fails). The file system is a
    `Disk`, mapping a path to the cache file found there. */
module RapClient {
  import opened Wrappers
  import opened OrderedMaps
  import opened JsValues
  import opened Progress
  import MockFiles

  // ---------------------------------------------------------------- objects and Maps

  /** A plain object as `for...in` sees it: its own enumerable properties
      and the enumerable properties it inherits. */
  datatype JsObject<V> = JsObject(own: OrderedMap<V>, inherited: OrderedMap<V>)
  {
    ghost predicate Valid() {
      own.Valid() && inherited.Valid()
    }
  }

  /** The inherited keys that no own property shadows, in order. */
  function InheritedOnly<V>(own: OrderedMap<V>, ks: seq<string>): (r: seq<string>)
    ensures forall k :: k in r <==> k in ks && k !in own.values
  {
    if ks == [] then []
    else (if ks[0] in own.values then [] else [ks[0]]) + InheritedOnly(own, ks[1..])
  }

  /** The keys `for (const key in object)` visits: the own keys, then the unshadowed inherited ones. */
  function ForInKeys<V>(o: JsObject<V>): (ks: seq<string>)
    ensures |o.own.keys| <= |ks| && ks[..|o.own.keys|] == o.own.keys
    ensures forall j :: |o.own.keys| <= j < |ks| ==> ks[j] !in o.own.values
  {
    var tail := InheritedOnly(o.own, o.inherited.keys);
    assert forall j :: |o.own.keys| <= j < |o.own.keys + tail| ==> (o.own.keys + tail)[j] in tail;
    o.own.keys + tail
  }

  /** The first `n` entries of a map, as the loops below have built them. */
  function Prefix<V>(m: OrderedMap<V>, n: nat): (r: OrderedMap<V>)
    requires m.Valid() && n <= |m.keys|
    ensures r.Valid()
  {
    var ks := m.keys[..n];
    assert forall k :: k in ks ==> k in m.keys;
    OrderedMap(ks, map k | k in ks :: m.values[k])
  }

  lemma PrefixEmpty<V>(m: OrderedMap<V>)
    requires m.Valid()
    ensures Prefix(m, 0) == Empty()
  {
    assert Prefix(m, 0).values == map[];
  }

  lemma PrefixStep<V>(m: OrderedMap<V>, n: nat)
    requires m.Valid() && n < |m.keys|
    ensures Put(Prefix(m, n), m.keys[n], m.values[m.keys[n]]) == Prefix(m, n + 1)
  {
    var k := m.keys[n];
    assert k !in m.keys[..n] by {
      forall j | 0 <= j < n ensures m.keys[j] != k { }
    }
    assert m.keys[..n + 1] == m.keys[..n] + [k];
    assert Put(Prefix(m, n), k, m.values[k]).values == Prefix(m, n + 1).values;
  }

  lemma PrefixAll<V>(m: OrderedMap<V>)
    requires m.Valid()
    ensures Prefix(m, |m.keys|) == m
  {
    assert m.keys[..|m.keys|] == m.keys;
    assert Prefix(m, |m.keys|).values == m.values;
  }

  /** `objectToMap(object)`: the own properties, in order; inherited ones are skipped. */
  method ObjectToMap<V>(obj: JsObject<V>) returns (entries: OrderedMap<V>)
    requires obj.Valid()
    ensures entries == obj.own
  {
    var ks := ForInKeys(obj);
    entries := Empty();
    PrefixEmpty(obj.own);
    var i := 0;
    while i < |ks|
      invariant 0 <= i <= |ks|
      invariant entries == Prefix(obj.own, if i <= |obj.own.keys| then i else |obj.own.keys|)
    {
      var key := ks[i];
      if key in obj.own.values {
        assert i < |obj.own.keys| && key == obj.own.keys[i];
        PrefixStep(obj.own, i);
        entries := Put(entries, key, obj.own.values[key]);
      }
      i := i + 1;
    }
    PrefixAll(obj.own);
  }

  /** `mapToObject(map)`: an object without prototype holding the entries in order. */
  method MapToObject<V>(entries: OrderedMap<V>) returns (obj: JsObject<V>)
    requires entries.Valid()
    ensures obj.Valid() && obj.own == entries && obj.inherited == Empty()
  {
    var own := Empty();
    PrefixEmpty(entries);
    var i := 0;
    while i < |entries.keys|
      invariant 0 <= i <= |entries.keys|
      invariant own == Prefix(entries, i)
    {
      PrefixStep(entries, i);
      own := Put(own, entries.keys[i], entries.values[entries.keys[i]]);
      i := i + 1;
    }
    PrefixAll(entries);
    obj := JsObject(own, Empty());
  }

  // ---------------------------------------------------------------- the repository

  /** An interface of the repository; `syncTime` is `new Date(updatedAt).getTime()`. */
  datatype Interface = Interface(id: int, syncTime: int, verb: string, url: string)
  datatype RapModule = RapModule(interfaces: seq<Interface>)
  datatype Repository = Repository(modules: seq<RapModule>)

  /** An entry of the path table and of the cache file. */
  datatype PathItem = PathItem(id: int, path: string, syncTime: int, data: Value)

  type PathTable = OrderedMap<PathItem>

  /** `${method} ${url}` */
  function PathKey(itf: Interface): string {
    itf.verb + " " + itf.url
  }

  /** Every entry sits under its own path, as the tables this client writes do. */
  ghost predicate WellKeyed(t: PathTable) {
    forall k :: k in t.values ==> t.values[k].path == k
  }

  /** The cached record may stand in for the interface: same path, same sync time. */
  predicate Reuses(itf: Interface, cache: PathTable) {
    PathKey(itf) in cache.values && cache.values[PathKey(itf)].syncTime == itf.syncTime
  }

  /** The entry `transformRepository` builds for one interface. */
  function Record(itf: Interface, cache: PathTable): (r: PathItem)
    ensures r.syncTime == itf.syncTime
    ensures WellKeyed(cache) ==> r.path == PathKey(itf)
    ensures Reuses(itf, cache) ==> r == cache.values[PathKey(itf)]
    ensures !Reuses(itf, cache) ==> r.id == itf.id && r.path == PathKey(itf) && !Truthy(r.data)
    ensures Truthy(r.data) ==> Reuses(itf, cache) && r == cache.values[PathKey(itf)]
  {
    if Reuses(itf, cache) then cache.values[PathKey(itf)]
    else PathItem(itf.id, PathKey(itf), itf.syncTime, Undefined)
  }

  /** All interfaces, module by module. */
  function Flatten(mods: seq<RapModule>): seq<Interface> {
    if mods == [] then []
    else Flatten(mods[..|mods| - 1]) + mods[|mods| - 1].interfaces
  }

  /** `pathMap` after `pathMap.set(path, pathItem)` for each of `itfs`. */
  function Reconcile(itfs: seq<Interface>, cache: PathTable): PathTable
  {
    if itfs == [] then Empty()
    else
      var last := itfs[|itfs| - 1];
      Put(Reconcile(itfs[..|itfs| - 1], cache), PathKey(last), Record(last, cache))
  }

  lemma {:induction false} ReconcileValid(itfs: seq<Interface>, cache: PathTable)
    ensures Reconcile(itfs, cache).Valid()
  {
    if itfs != [] {
      ReconcileValid(itfs[..|itfs| - 1], cache);
    }
  }

  /** The keys of the interfaces, in order. */
  function PathKeys(itfs: seq<Interface>): (ks: seq<string>)
    ensures |ks| == |itfs|
    ensures forall i :: 0 <= i < |itfs| ==> ks[i] == PathKey(itfs[i])
  {
    if itfs == [] then [] else PathKeys(itfs[..|itfs| - 1]) + [PathKey(itfs[|itfs| - 1])]
  }

  /** The table holds exactly the remote interfaces' keys: cache-only keys are dropped. */
  lemma {:induction false} ReconcileKeys(itfs: seq<Interface>, cache: PathTable, k: string)
    ensures k in Reconcile(itfs, cache).values <==> k in PathKeys(itfs)
  {
    if itfs != [] {
      ReconcileKeys(itfs[..|itfs| - 1], cache, k);
    }
  }

  /** A key's entry is the record of the LAST interface with that key. */
  lemma {:induction false} ReconcileLastWins(itfs: seq<Interface>, cache: PathTable, i: nat)
    requires i < |itfs|
    requires forall j :: i < j < |itfs| ==> PathKey(itfs[j]) != PathKey(itfs[i])
    ensures PathKey(itfs[i]) in Reconcile(itfs, cache).values
    ensures Reconcile(itfs, cache).values[PathKey(itfs[i])] == Record(itfs[i], cache)
  {
    if i < |itfs| - 1 {
      var init := itfs[..|itfs| - 1];
      assert init[i] == itfs[i];
      ReconcileLastWins(init, cache, i);
    }
  }

  /** A key keeps the position of its FIRST interface: the table built from
      a prefix of the interfaces is a prefix of the whole table. */
  lemma {:induction false} ReconcileKeepsPositions(itfs: seq<Interface>, cache: PathTable, n: nat)
    requires n <= |itfs|
    ensures |Reconcile(itfs[..n], cache).keys| <= |Reconcile(itfs, cache).keys|
    ensures Reconcile(itfs, cache).keys[..|Reconcile(itfs[..n], cache).keys|] == Reconcile(itfs[..n], cache).keys
    decreases |itfs|
  {
    if n < |itfs| {
      var init := itfs[..|itfs| - 1];
      assert itfs[..n] == init[..n];
      ReconcileKeepsPositions(init, cache, n);
    } else {
      assert itfs[..n] == itfs;
    }
  }

  /** Reconciling against a well-keyed cache gives a well-keyed table. */
  lemma {:induction false} ReconcileWellKeyed(itfs: seq<Interface>, cache: PathTable)
    requires WellKeyed(cache)
    ensures WellKeyed(Reconcile(itfs, cache))
  {
    if itfs != [] {
      ReconcileWellKeyed(itfs[..|itfs| - 1], cache);
    }
  }

  // ---------------------------------------------------------------- payloads

  /** An entry after `fetchCache` looked at it: kept when its data is
      truthy, otherwise given the fetched payload; `None` when that request fails. */
  function Filled(item: PathItem, templates: map<int, Value>): Option<PathItem> {
    if Truthy(item.data) then Some(item)
    else if item.id in templates then Some(item.(data := templates[item.id]))
    else None
  }

  /** The table after the first `n` entries were handled. */
  function FillFirst(t: PathTable, templates: map<int, Value>, n: nat): Option<PathTable>
    requires t.Valid() && n <= |t.keys|
  {
    if n == 0 then Some(t)
    else
      var prev := FillFirst(t, templates, n - 1);
      var item := Filled(t.values[t.keys[n - 1]], templates);
      if prev.None? || item.None? then None
      else Some(Put(prev.value, t.keys[n - 1], item.value))
  }

  function Fill(t: PathTable, templates: map<int, Value>): Option<PathTable>
    requires t.Valid()
  {
    FillFirst(t, templates, |t.keys|)
  }

  /** Filling fails exactly when an entry without data has no payload to fetch. */
  lemma {:induction false} FillFailsIff(t: PathTable, templates: map<int, Value>, n: nat)
    requires t.Valid() && n <= |t.keys|
    ensures FillFirst(t, templates, n).None? <==>
            exists j :: 0 <= j < n && Filled(t.values[t.keys[j]], templates).None?
  {
    if n > 0 {
      FillFailsIff(t, templates, n - 1);
    }
  }

  /** A successful fill keeps every key in place. */
  lemma {:induction false} FillKeys(t: PathTable, templates: map<int, Value>, n: nat)
    requires t.Valid() && n <= |t.keys|
    requires FillFirst(t, templates, n).Some?
    ensures FillFirst(t, templates, n).value.Valid()
    ensures FillFirst(t, templates, n).value.keys == t.keys
  {
    if n > 0 {
      FillKeys(t, templates, n - 1);
    }
  }

  /** An entry's new value is the entry as `fetchCache` left it: entries
      with data are untouched, the others carry the fetched payload. */
  lemma {:induction false} FillValues(t: PathTable, templates: map<int, Value>, n: nat, j: nat)
    requires t.Valid() && n <= |t.keys| && j < |t.keys|
    requires FillFirst(t, templates, n).Some?
    ensures t.keys[j] in FillFirst(t, templates, n).value.values
    ensures j < n ==> Filled(t.values[t.keys[j]], templates).Some?
    ensures FillFirst(t, templates, n).value.values[t.keys[j]] ==
              if j < n then Filled(t.values[t.keys[j]], templates).value else t.values[t.keys[j]]
  {
    if n > 0 {
      var prev := FillFirst(t, templates, n - 1);
      var item := Filled(t.values[t.keys[n - 1]], templates);
      assert prev.Some? && item.Some?;
      assert FillFirst(t, templates, n).value == Put(prev.value, t.keys[n - 1], item.value);
      FillValues(t, templates, n - 1, j);
      var after := FillFirst(t, templates, n).value;
      assert after.values == prev.value.values[t.keys[n - 1] := item.value];
      if j != n - 1 {
        assert t.keys[j] != t.keys[n - 1];
        assert after.values[t.keys[j]] == prev.value.values[t.keys[j]];
      }
    }
  }

  /** After a successful fill, every entry has data of its own or the payload fetched for its id. */
  lemma FilledEntry(t: PathTable, templates: map<int, Value>, k: string)
    requires t.Valid() && Fill(t, templates).Some? && k in t.values
    ensures k in Fill(t, templates).value.values
    ensures var e := Fill(t, templates).value.values[k];
      Truthy(e.data) || (e.id in templates && e.data == templates[e.id])
  {
    var j :| 0 <= j < |t.keys| && t.keys[j] == k;
    FillValues(t, templates, |t.keys|, j);
  }

  /** One more entry handled. */
  lemma FillStep(t: PathTable, templates: map<int, Value>, i: nat, out: PathTable)
    requires t.Valid() && i < |t.keys| && FillFirst(t, templates, i) == Some(out)
    ensures FillFirst(t, templates, i + 1) ==
      match Filled(t.values[t.keys[i]], templates)
      case None => None
      case Some(item) => Some(Put(out, t.keys[i], item))
  {
  }

  lemma PutUnchanged<V>(m: OrderedMap<V>, k: string, v: V)
    requires k in m.values && m.values[k] == v
    ensures Put(m, k, v) == m
  {
    assert m.values[k := v] == m.values;
  }

  /** What `fetchCache` prints for an entry. */
  function Label(item: PathItem): string {
    (if Truthy(item.data) then "跳过" else "获取") + item.path
  }

  /** The frames drawn for the first `n` entries: one tick each, in map order. */
  function TickFrames(t: PathTable, n: nat): (fs: seq<Frame>)
    requires t.Valid() && n <= |t.keys|
    ensures |fs| == n
    ensures forall j :: 0 <= j < n ==> fs[j] == Frame(j + 1, |t.keys|, Label(t.values[t.keys[j]]))
  {
    if n == 0 then [] else TickFrames(t, n - 1) + [Frame(n, |t.keys|, Label(t.values[t.keys[n - 1]]))]
  }

  /** `fetchCache(pathMap)`: the entries in map order, a payload fetched for
      each one whose data is falsy, and one tick of a fresh bar per entry. */
  method FetchCache(pathMap: PathTable, templates: map<int, Value>) returns (r: Option<PathTable>, bar: ProgressBar)
    requires pathMap.Valid()
    ensures r == Fill(pathMap, templates)
    ensures fresh(bar) && bar.title == "同步RAP接口Mock数据" && bar.total == |pathMap.keys|
    ensures r.Some? ==> bar.completed == bar.total
    ensures 0 <= bar.completed <= |pathMap.keys| && bar.frames == TickFrames(pathMap, bar.completed)
  {
    bar := new ProgressBar("同步RAP接口Mock数据", 0, |pathMap.keys|);
    var out := pathMap;
    var i := 0;
    while i < |pathMap.keys|
      invariant 0 <= i <= |pathMap.keys|
      invariant FillFirst(pathMap, templates, i) == Some(out)
      invariant bar.title == "同步RAP接口Mock数据" && bar.total == |pathMap.keys|
      invariant bar.completed == i && |bar.frames| == i
      invariant bar.frames == TickFrames(pathMap, i)
    {
      var element := pathMap.values[pathMap.keys[i]];
      bar.Tick(Label(element));
      FillStep(pathMap, templates, i, out);
      if !Truthy(element.data) {
        if element.id !in templates {
          FillFailsIff(pathMap, templates, |pathMap.keys|);
          return None, bar;
        }
        out := Put(out, pathMap.keys[i], element.(data := templates[element.id]));
      } else {
        FillValues(pathMap, templates, i, i);
        PutUnchanged(out, pathMap.keys[i], element);
      }
      i := i + 1;
    }
    r := Some(out);
  }

  // ---------------------------------------------------------------- the client

  /** The options object; an absent `watchPath` is `""`. `cachePath` and
      `cache` are accepted and never read. */
  datatype ClientOptions = ClientOptions(watchPath: string, cachePath: string, apiUrl: Value, id: Value,
                                         appId: Value, appSecret: Value, cache: Value)

  /** `resp.data` as `transformRepository` reads it. */
  datatype RepositoryData =
    | Missing                           // `null` or `undefined`: reading `modules` throws before the cache is read
    | WithoutModules                    // an object without a `modules` list: `modules.forEach` throws after it
    | Present(repository: Repository)

  datatype RepositoryReply = RepositoryReply(
    isOk: Value,
    errMsg: Value,
    data: RepositoryData)

  datatype Remote = Remote(
    tokenReply: Option<Value>,                  // `data.token` of the token request; `None` when it fails
    repositoryReply: Option<RepositoryReply>,   // `None` when the repository request fails
    templates: map<int, Value>)                 // the payload request for each interface id

  datatype CacheFile = Parsed(paths: JsObject<PathItem>) | Malformed

  type Disk = map<string, CacheFile>

  /** Why `getRapMocker` rejects. */
  datatype RapError =
    | TokenRequestFailed
    | RepositoryRequestFailed
    | RemoteRejected(errMsg: Value)   // `new Error(resp.errMsg)`
    | MalformedRepository             // the TypeError of reading `modules`
    | TemplateRequestFailed
    | CacheUnreadable                 // `require` of the cache file threw

  function CacheFilePath(workPath: string): string {
    MockFiles.JoinPath(workPath, "paths.json")
  }

  /** `getPathsCache()`: `{}` when there is no cache file. */
  function PathsCache(disk: Disk, workPath: string): (r: Result<JsObject<PathItem>, RapError>)
    ensures CacheFilePath(workPath) !in disk ==> r == Ok(JsObject(Empty(), Empty()))
    ensures r.Err? <==> CacheFilePath(workPath) in disk && disk[CacheFilePath(workPath)].Malformed?
    ensures r.Err? ==> r.error == CacheUnreadable
    ensures CacheFilePath(workPath) in disk && disk[CacheFilePath(workPath)].Parsed? ==>
              r == Ok(disk[CacheFilePath(workPath)].paths)
  {
    var file := CacheFilePath(workPath);
    if file !in disk then Ok(JsObject(Empty(), Empty()))
    else match disk[file]
      case Parsed(paths) => Ok(paths)
      case Malformed => Err(CacheUnreadable)
  }

  /** The token after `getRepository`: requested only when the held one is falsy. */
  function TokenAfter(token: Value, remote: Remote): Value {
    if !Truthy(token) && remote.tokenReply.Some? then remote.tokenReply.value else token
  }

  /** What `getRepository` settles with, given the token held before the call. */
  function RepositoryOutcome(token: Value, remote: Remote): (r: Result<RepositoryData, RapError>)
    ensures r == Err(TokenRequestFailed) <==> !Truthy(token) && remote.tokenReply.None?
    ensures r == Err(RepositoryRequestFailed) <==> (Truthy(token) || remote.tokenReply.Some?) && remote.repositoryReply.None?
    ensures r.Err? && r.error.RemoteRejected? <==>
              (Truthy(token) || remote.tokenReply.Some?) && remote.repositoryReply.Some?
              && remote.repositoryReply.value.isOk == Bool(false)
    ensures r.Err? && r.error.RemoteRejected? ==> r.error.errMsg == remote.repositoryReply.value.errMsg
    ensures r.Ok? ==> remote.repositoryReply.Some? && r.value == remote.repositoryReply.value.data
    ensures ((Truthy(token) || remote.tokenReply.Some?) && remote.repositoryReply.Some?
             && remote.repositoryReply.value.isOk != Bool(false)) ==> r == Ok(remote.repositoryReply.value.data)
  {
    if !Truthy(token) && remote.tokenReply.None? then Err(TokenRequestFailed)
    else if remote.repositoryReply.None? then Err(RepositoryRequestFailed)
    else if remote.repositoryReply.value.isOk == Bool(false) then Err(RemoteRejected(remote.repositoryReply.value.errMsg))
    else Ok(remote.repositoryReply.value.data)
  }

  /** A held token is used as it is: the token reply then changes nothing. */
  lemma TokenReused(token: Value, r1: Remote, r2: Remote)
    requires Truthy(token) && r1.repositoryReply == r2.repositoryReply
    ensures RepositoryOutcome(token, r1) == RepositoryOutcome(token, r2)
    ensures TokenAfter(token, r1) == token
  {
  }

  /** What `transformRepository(repository, canCache)` resolves to: the
      reconciled table, filled when `canCache`. */
  function Transform(repository: RepositoryData, canCache: bool, templates: map<int, Value>,
                     disk: Disk, workPath: string): (r: Result<PathTable, RapError>)
    ensures repository.Missing? ==> r == Err(MalformedRepository)
    ensures !repository.Missing? && PathsCache(disk, workPath).Err? ==> r == Err(CacheUnreadable)
    ensures repository.WithoutModules? && PathsCache(disk, workPath).Ok? ==> r == Err(MalformedRepository)
    ensures r.Ok? ==> repository.Present? && PathsCache(disk, workPath).Ok?
    ensures r.Ok? ==> r.value.Valid()
  {
    if repository.Missing? then Err(MalformedRepository)
    else match PathsCache(disk, workPath)
      case Err(e) => Err(e)
      case Ok(cached) =>
        if repository.WithoutModules? then Err(MalformedRepository)
        else
        var table := Reconcile(Flatten(repository.repository.modules), cached.own);
        ReconcileValid(Flatten(repository.repository.modules), cached.own);
        if !canCache then Ok(table)
        else match Fill(table, templates)
          case None => Err(TemplateRequestFailed)
          case Some(t) =>
            FillKeys(table, templates, |table.keys|);
            Ok(t)
  }

  /** What `getRapMocker()` resolves to. On failure the cache is read and
      then discarded: the call rejects all the same, with the cache's own
      error if reading it throws. */
  function MockerOutcome(token: Value, remote: Remote, disk: Disk, workPath: string): (r: Result<PathTable, RapError>)
    ensures RepositoryOutcome(token, remote).Err? ==> r.Err?
    ensures r.Err? && PathsCache(disk, workPath).Err? ==> r.error == CacheUnreadable
    ensures r.Ok? ==> && RepositoryOutcome(token, remote).Ok?
                      && r == Transform(RepositoryOutcome(token, remote).value, true, remote.templates, disk, workPath)
    ensures RepositoryOutcome(token, remote).Ok?
            && Transform(RepositoryOutcome(token, remote).value, true, remote.templates, disk, workPath).Ok? ==>
              r == Transform(RepositoryOutcome(token, remote).value, true, remote.templates, disk, workPath)
  {
    var repo := RepositoryOutcome(token, remote);
    var transformed := if repo.Err? then Err(repo.error) else Transform(repo.value, true, remote.templates, disk, workPath);
    if transformed.Ok? then transformed
    else if PathsCache(disk, workPath).Err? then Err(CacheUnreadable)
    else transformed
  }

  /** A successful sync holds exactly the remote interfaces' keys, each entry
      carrying data it already had or the payload fetched for its id; and it
      succeeds only when the repository request does. */
  lemma MockerTable(token: Value, remote: Remote, disk: Disk, workPath: string, k: string)
    requires MockerOutcome(token, remote, disk, workPath).Ok?
    ensures RepositoryOutcome(token, remote).Ok? && RepositoryOutcome(token, remote).value.Present?
    ensures var t := MockerOutcome(token, remote, disk, workPath).value;
            var itfs := Flatten(RepositoryOutcome(token, remote).value.repository.modules);
      && t.Valid()
      && (k in t.values <==> k in PathKeys(itfs))
      && (k in t.values ==> Truthy(t.values[k].data) || (t.values[k].id in remote.templates && t.values[k].data == remote.templates[t.values[k].id]))
  {
    var repo := RepositoryOutcome(token, remote).value.repository;
    var cached := PathsCache(disk, workPath).value;
    var table := Reconcile(Flatten(repo.modules), cached.own);
    ReconcileValid(Flatten(repo.modules), cached.own);
    assert Fill(table, remote.templates).Some?;
    FillKeys(table, remote.templates, |table.keys|);
    ReconcileKeys(Flatten(repo.modules), cached.own, k);
    if k in table.values {
      FilledEntry(table, remote.templates, k);
    }
  }

  /** The sync is incremental: an interface whose path the cache file holds
      with the same sync time and with data keeps that cached record as it
      is, so no payload is fetched for it. */
  lemma CachedEntryKept(token: Value, remote: Remote, disk: Disk, workPath: string, repo: Repository, i: nat)
    requires RepositoryOutcome(token, remote) == Ok(Present(repo))
    requires CacheFilePath(workPath) in disk && disk[CacheFilePath(workPath)].Parsed?
    requires MockerOutcome(token, remote, disk, workPath).Ok?
    requires i < |Flatten(repo.modules)|
    requires forall j :: i < j < |Flatten(repo.modules)| ==> PathKey(Flatten(repo.modules)[j]) != PathKey(Flatten(repo.modules)[i])
    requires Reuses(Flatten(repo.modules)[i], disk[CacheFilePath(workPath)].paths.own)
    requires Truthy(disk[CacheFilePath(workPath)].paths.own.values[PathKey(Flatten(repo.modules)[i])].data)
    ensures var k := PathKey(Flatten(repo.modules)[i]);
      && k in MockerOutcome(token, remote, disk, workPath).value.values
      && MockerOutcome(token, remote, disk, workPath).value.values[k] == disk[CacheFilePath(workPath)].paths.own.values[k]
  {
    var itfs := Flatten(repo.modules);
    var cached := disk[CacheFilePath(workPath)].paths.own;
    var k := PathKey(itfs[i]);
    var table := Reconcile(itfs, cached);
    ReconcileValid(itfs, cached);
    ReconcileLastWins(itfs, cached, i);
    assert Fill(table, remote.templates).Some?;
    var j :| 0 <= j < |table.keys| && table.keys[j] == k;
    FillValues(table, remote.templates, |table.keys|, j);
  }

  /** The outer `forEach` of `transformRepository`: the modules in order. */
  method BuildPathMap(mods: seq<RapModule>, cacheMap: PathTable) returns (pathMap: PathTable)
    ensures pathMap == Reconcile(Flatten(mods), cacheMap)
  {
    pathMap := Empty();
    var i := 0;
    while i < |mods|
      invariant 0 <= i <= |mods|
      invariant pathMap == Reconcile(Flatten(mods[..i]), cacheMap)
    {
      pathMap := SetInterfaces(pathMap, Flatten(mods[..i]), mods[i].interfaces, cacheMap);
      assert mods[..i + 1][..i] == mods[..i];
      i := i + 1;
    }
    assert mods[..i] == mods;
  }

  /** One more interface of a module is one more `set` on the table. */
  lemma ReconcileStep(done: seq<Interface>, interfaces: seq<Interface>, j: nat, cacheMap: PathTable)
    requires j < |interfaces|
    ensures Reconcile(done + interfaces[..j + 1], cacheMap) ==
            Put(Reconcile(done + interfaces[..j], cacheMap), PathKey(interfaces[j]), Record(interfaces[j], cacheMap))
  {
    var next := done + interfaces[..j + 1];
    assert next[..|next| - 1] == done + interfaces[..j];
    assert next[|next| - 1] == interfaces[j];
  }

  /** The inner `forEach`: one `pathMap.set` per interface of a module. */
  method SetInterfaces(pathMap: PathTable, done: seq<Interface>, interfaces: seq<Interface>, cacheMap: PathTable)
    returns (r: PathTable)
    requires pathMap == Reconcile(done, cacheMap)
    ensures r == Reconcile(done + interfaces, cacheMap)
  {
    r := pathMap;
    var j := 0;
    assert done + interfaces[..0] == done;
    while j < |interfaces|
      invariant 0 <= j <= |interfaces|
      invariant r == Reconcile(done + interfaces[..j], cacheMap)
    {
      var itf := interfaces[j];
      ReconcileStep(done, interfaces, j, cacheMap);
      r := Put(r, PathKey(itf), Record(itf, cacheMap));
      j := j + 1;
    }
    assert interfaces[..j] == interfaces;
  }

  class RapClient {
    const apiUrl: Value
    const id: Value
    const appId: Value
    const appSecret: Value
    /** The cache directory. */
    const workPath: string
    var token: Value

    /** `new RapClient(opt)`; `moduleDir` is the directory of the client's own source (`__dirname`). */
    constructor(opt: ClientOptions, moduleDir: string)
      ensures workPath == MockFiles.JoinPath(if opt.watchPath != "" then opt.watchPath else moduleDir, "_cache")
      ensures apiUrl == opt.apiUrl && id == opt.id && appId == opt.appId && appSecret == opt.appSecret
      ensures token == Str("")
    {
      apiUrl := opt.apiUrl;
      id := opt.id;
      appId := opt.appId;
      appSecret := opt.appSecret;
      token := Str("");
      workPath := MockFiles.JoinPath(if opt.watchPath != "" then opt.watchPath else moduleDir, "_cache");
    }

    /** `getToken()`: stores `data.token`; a failed request leaves the token alone. */
    method GetToken(remote: Remote) returns (err: Option<RapError>)
      modifies this`token
      ensures err == (if remote.tokenReply.None? then Some(TokenRequestFailed) else None)
      ensures token == (if remote.tokenReply.Some? then remote.tokenReply.value else old(token))
    {
      if remote.tokenReply.None? {
        return Some(TokenRequestFailed);
      }
      token := remote.tokenReply.value;
      err := None;
    }

    /** `getRepository()` */
    method GetRepository(remote: Remote) returns (r: Result<RepositoryData, RapError>)
      modifies this`token
      ensures r == RepositoryOutcome(old(token), remote)
      ensures token == TokenAfter(old(token), remote)
    {
      if !Truthy(token) {
        var err := GetToken(remote);
        if err.Some? {
          return Err(err.value);
        }
      }
      if remote.repositoryReply.None? {
        return Err(RepositoryRequestFailed);
      }
      var resp := remote.repositoryReply.value;
      if resp.isOk == Bool(false) {
        return Err(RemoteRejected(resp.errMsg));
      }
      r := Ok(resp.data);
    }

    /** `transformRepository(repository, canCache)`: the nested loops over
        modules and interfaces, then the fill. */
    method TransformRepository(repository: RepositoryData, canCache: bool, remote: Remote, disk: Disk)
      returns (r: Result<JsObject<PathItem>, RapError>)
      requires forall f :: f in disk && disk[f].Parsed? ==> disk[f].paths.Valid()
      ensures Transform(repository, canCache, remote.templates, disk, workPath).Ok? <==> r.Ok?
      ensures r.Ok? ==> r.value.own == Transform(repository, canCache, remote.templates, disk, workPath).value
                        && r.value.inherited == Empty()
      ensures r.Err? ==> r.error == Transform(repository, canCache, remote.templates, disk, workPath).error
    {
      if repository.Missing? {
        return Err(MalformedRepository);
      }
      var cachePaths := PathsCache(disk, workPath);
      if cachePaths.Err? {
        return Err(cachePaths.error);
      }
      var cacheMap := ObjectToMap(cachePaths.value);
      if repository.WithoutModules? {
        return Err(MalformedRepository);
      }
      var pathMap := BuildPathMap(repository.repository.modules, cacheMap);
      ReconcileValid(Flatten(repository.repository.modules), cacheMap);
      if canCache {
        var filled, bar := FetchCache(pathMap, remote.templates);
        if filled.None? {
          return Err(TemplateRequestFailed);
        }
        FillKeys(pathMap, remote.templates, |pathMap.keys|);
        pathMap := filled.value;
      }
      var paths := MapToObject(pathMap);
      r := Ok(paths);
    }

    /** `getRapMocker()` */
    method GetRapMocker(remote: Remote, disk: Disk) returns (r: Result<JsObject<PathItem>, RapError>)
      requires forall f :: f in disk && disk[f].Parsed? ==> disk[f].paths.Valid()
      modifies this`token
      ensures token == TokenAfter(old(token), remote)
      ensures MockerOutcome(old(token), remote, disk, workPath).Ok? <==> r.Ok?
      ensures r.Ok? ==> r.value.own == MockerOutcome(old(token), remote, disk, workPath).value
                        && r.value.inherited == Empty()
      ensures r.Err? ==> r.error == MockerOutcome(old(token), remote, disk, workPath).error
    {
      var repository := GetRepository(remote);
      var error: RapError;
      if repository.Ok? {
        r := TransformRepository(repository.value, true, remote, disk);
        if r.Ok? {
          return r;
        }
        error := r.error;
      } else {
        error := repository.error;
      }
      // the cache read on failure: its result is dropped, but it may throw
      var fallback := PathsCache(disk, workPath);
      if fallback.Err? {
        return Err(fallback.error);
      }
      r := Err(error);
    }
  }
}
