/** The remote-table middleware (src/middleware/rap.js): it serves the
    entries the client synchronised, or forwards matched requests to the
    remote mock server when caching is switched off. */
module RapMiddleware {
  import opened Wrappers
  import opened OrderedMaps
  import opened JsValues
  import opened RouteLookup
  import opened Http
  import MockFiles
  import RC = RapClient

  /** `config.rap` as the middleware reads it. */
  datatype RapConfig = RapConfig(url: Value, id: Value, appId: Value, appSecret: Value, cache: Value)

  /** The proxy server's target, `${url}/app/mock/${id}`. */
  datatype ProxyTarget = ProxyTarget(url: Value, id: Value)

  const OfflineMessage := "缓存中未缓存mock规则，无法离线mock"

  /** `{isOk: false, errMsg: ...}`, served for an entry without data. */
  function OfflinePayload(): (v: Value)
    ensures v.Obj? && v.props.Valid()
    ensures Prop(v.props, "isOk") == Bool(false) && Prop(v.props, "errMsg") == Str(OfflineMessage)
  {
    Obj(Put(Put(Empty(), "isOk", Bool(false)), "errMsg", Str(OfflineMessage)))
  }

  datatype RapOutcome =
    | Forward(target: ProxyTarget)   // proxyServer.web(req, res)
    | Serve(template: Value)         // res.json(Mock.mock(template))
    | RapNext                        // next()

  /** `middleware(req, res, next)` against the table `mocker`. Every entry
      is an object, so a found key always has a truthy entry. */
  function Decide(mocker: RC.PathTable, proxyServer: Option<ProxyTarget>, req: Request, matches: Matcher): (o: RapOutcome)
    requires mocker.Valid()
    ensures var hit := FindKey(mocker.keys, req.verb, req.path, matches);
      && (o.RapNext? <==> hit.None? || hit.value == "")
      && (o.Forward? <==> hit.Some? && hit.value != "" && proxyServer.Some?)
      && (o.Forward? ==> o.target == proxyServer.value)
      && (o.Serve? ==> hit.Some? && hit.value in mocker.values
                       && o.template == (if Truthy(mocker.values[hit.value].data) then mocker.values[hit.value].data
                                         else OfflinePayload()))
  {
    var hit := FindKey(mocker.keys, req.verb, req.path, matches);
    if hit.Some? && hit.value != "" then
      assert hit.value in mocker.values;
      if proxyServer.Some? then Forward(proxyServer.value)
      else Serve(Or(mocker.values[hit.value].data, OfflinePayload()))
    else RapNext
  }

  /** Offline, the first matching entry is served: its data, or the error
      payload when it has none; later matching entries are never read. */
  lemma ServesFirstMatch(mocker: RC.PathTable, req: Request, matches: Matcher, i: nat)
    requires mocker.Valid()
    requires i < |mocker.keys| && mocker.keys[i] != "" && Hit(mocker.keys[i], req.verb, req.path, matches)
    requires forall j :: 0 <= j < i ==> !Hit(mocker.keys[j], req.verb, req.path, matches)
    ensures Decide(mocker, None, req, matches) ==
            Serve(if Truthy(mocker.values[mocker.keys[i]].data) then mocker.values[mocker.keys[i]].data else OfflinePayload())
  {
    var hit := FindKey(mocker.keys, req.verb, req.path, matches);
    var w :| 0 <= w < |mocker.keys| && mocker.keys[w] == hit.value && Hit(mocker.keys[w], req.verb, req.path, matches)
             && forall j :: 0 <= j < w ==> !Hit(mocker.keys[j], req.verb, req.path, matches);
    assert w == i;
  }

  /** With a proxy server, any matched request is forwarded, whatever its entry holds. */
  lemma ForwardIgnoresEntries(m1: RC.PathTable, m2: RC.PathTable, target: ProxyTarget, req: Request, matches: Matcher)
    requires m1.Valid() && m2.Valid() && m1.keys == m2.keys
    ensures Decide(m1, Some(target), req, matches) == Decide(m2, Some(target), req, matches)
  {
  }

  class RapMiddleware {
    /** The synchronised table; `{}` until the client's sync succeeds. */
    var mocker: RC.PathTable
    const proxyServer: Option<ProxyTarget>
    const client: RC.RapClient

    ghost predicate Valid()
      reads this
    {
      mocker.Valid()
    }

    /** `new RapMiddleware({cachePath, config})`; `moduleDir` is the client
        module's directory. The client is handed `cachePath`, which it does
        not read, so its cache lives under `moduleDir` whatever `cachePath` is. */
    constructor(cachePath: string, config: RapConfig, moduleDir: string)
      ensures Valid() && mocker == Empty()
      ensures proxyServer.Some? <==> config.cache == Bool(false)
      ensures proxyServer.Some? ==> proxyServer.value == ProxyTarget(config.url, config.id)
      ensures fresh(client) && client.token == Str("")
      ensures client.workPath == MockFiles.JoinPath(moduleDir, "_cache")
      ensures client.apiUrl == config.url && client.id == config.id
      ensures client.appId == config.appId && client.appSecret == config.appSecret
    {
      client := new RC.RapClient(RC.ClientOptions("", cachePath, config.url, config.id, config.appId, config.appSecret, config.cache), moduleDir);
      mocker := Empty();
      proxyServer := if config.cache == Bool(false) then Some(ProxyTarget(config.url, config.id)) else None;
    }

    /** `updateMocker(mocker)`: the table is replaced as a whole. */
    method UpdateMocker(m: RC.PathTable)
      requires m.Valid()
      modifies this`mocker
      ensures Valid() && mocker == m
    {
      mocker := m;
    }

    /** The settling of the `getRapMocker()` promise the constructor starts:
        a rejection leaves the table as it was (`{}` on the first sync). */
    method CompleteSync(remote: RC.Remote, disk: RC.Disk)
      requires Valid()
      requires forall f :: f in disk && disk[f].Parsed? ==> disk[f].paths.Valid()
      modifies this`mocker, client`token
      ensures Valid()
      ensures client.token == RC.TokenAfter(old(client.token), remote)
      ensures var outcome := RC.MockerOutcome(old(client.token), remote, disk, client.workPath);
        && (outcome.Ok? ==> mocker == outcome.value)
        && (outcome.Err? ==> mocker == old(mocker))
    {
      var data := client.GetRapMocker(remote, disk);
      if data.Ok? {
        RC.MockerTable(old(client.token), remote, disk, client.workPath, "");
        UpdateMocker(data.value.own);
      }
    }

    /** What the middleware does with a request against the current table. */
    function Handle(req: Request, matches: Matcher): RapOutcome
      requires Valid()
      reads this
    {
      Decide(mocker, proxyServer, req, matches)
    }
  }
}
