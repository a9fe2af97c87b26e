/** The package entry point (src/index.js): the options with their
    defaults, and the middleware it registers on the application, in the
    order mock, remote table, proxy. */
module Wiring {
  import opened Wrappers
  import opened OrderedMaps
  import opened JsValues
  import opened Http
  import opened MockFiles
  import opened ProxyRules
  import opened Express
  import Mock = MockMiddleware
  import Rap = RapMiddleware
  import PM = ProxyMiddleware

  /** The user's `rap` option; an absent field is `Undefined`. */
  datatype RapConf = RapConf(url: Value, id: Value, appId: Value, appSecret: Value, cache: Value)

  /** The user's configuration; an absent field is `Undefined` or `None`. */
  datatype Conf = Conf(noMock: Value, proxy: Option<ProxyConfig>, rap: RapConf)

  datatype RapOptions = RapOptions(url: Value, id: Value, appId: Value, appSecret: Value, cache: Value, enable: bool)

  /** The merged options the rest of the package reads. */
  datatype Options = Options(noMock: Value, proxy: ProxyConfig, rap: RapOptions)

  /** The merge of a leaf option into its default: `undefined` keeps the default. */
  function MergeLeaf(given: Value, default: Value): (r: Value)
    ensures given != Undefined ==> r == given
    ensures given == Undefined ==> r == default
  {
    if given == Undefined then default else given
  }

  /** `rap.enable`: all four connection settings are truthy. */
  predicate Enabled(url: Value, id: Value, appId: Value, appSecret: Value) {
    Truthy(url) && Truthy(id) && Truthy(appId) && Truthy(appSecret)
  }

  /** `getOption(conf)`: the user's values over the defaults `noMock: false`,
      `proxy: {}`, `rap: {cache: true}`, with `rap.enable` computed. */
  function GetOption(conf: Conf): (o: Options)
    ensures o.rap.enable <==> Enabled(o.rap.url, o.rap.id, o.rap.appId, o.rap.appSecret)
    ensures o.noMock == MergeLeaf(conf.noMock, Bool(false))
    ensures o.rap.cache == MergeLeaf(conf.rap.cache, Bool(true))
    ensures o.proxy == (if conf.proxy.Some? then conf.proxy.value else ProxyTable(Empty()))
    ensures o.rap.url == conf.rap.url && o.rap.id == conf.rap.id
    ensures o.rap.appId == conf.rap.appId && o.rap.appSecret == conf.rap.appSecret
  {
    var url := conf.rap.url;
    var id := conf.rap.id;
    var appId := conf.rap.appId;
    var appSecret := conf.rap.appSecret;
    Options(MergeLeaf(conf.noMock, Bool(false)),
            if conf.proxy.Some? then conf.proxy.value else ProxyTable(Empty()),
            RapOptions(url, id, appId, appSecret, MergeLeaf(conf.rap.cache, Bool(true)),
                       Truthy(url) && Truthy(id) && Truthy(appId) && Truthy(appSecret)))
  }

  /** With nothing configured, mocking is on, the remote table is off (and
      would cache), and there are no proxy rules. */
  lemma Defaults()
    ensures var o := GetOption(Conf(Undefined, None, RapConf(Undefined, Undefined, Undefined, Undefined, Undefined)));
      && !Truthy(o.noMock) && o.rap.cache == Bool(true) && !o.rap.enable
      && Normalise(o.proxy) == Some([])
  {
  }

  /** Each rule table and each object rule is a well-formed object. */
  ghost predicate ValidConf(conf: Conf) {
    conf.proxy.Some? && conf.proxy.value.ProxyTable? ==>
      && conf.proxy.value.props.Valid()
      && forall k :: k in conf.proxy.value.props.values && conf.proxy.value.props.values[k].Obj? ==>
           conf.proxy.value.props.values[k].props.Valid()
  }

  function MockLayers(mock: Option<Mock.MockMiddleware>): seq<Layer> {
    if mock.Some? then [MockLayer(mock.value)] else []
  }

  function RapLayers(rap: Option<Rap.RapMiddleware>): seq<Layer> {
    if rap.Some? then [RapLayer(rap.value)] else []
  }

  datatype SetupError =
    | MockerLoadFailed                   // the mock middleware's constructor threw
    | ProxyInitFailed(e: PM.InitError)   // the proxy middleware's `init` threw

  /** `module.exports(app, watchPath, conf)`. `root` is the watched directory
      (`None` when it cannot be read), `modules` the exports of the mock
      files, and `moduleDir` the directory of the remote client's source. */
  method Setup(app: App, watchPath: string, root: Option<Dir>, modules: map<string, MockTable>,
               conf: Conf, moduleDir: string)
    returns (mock: Option<Mock.MockMiddleware>, rap: Option<Rap.RapMiddleware>,
             proxy: Option<PM.ProxyMiddleware>, err: Option<SetupError>)
    requires ValidModules(modules) && ValidConf(conf)
    modifies app
    ensures var o := GetOption(conf);
      && (mock.Some? <==> !Truthy(o.noMock) && root.Some? && Merge(WatchFiles(watchPath, root.value), modules).Some?)
      && (err == Some(MockerLoadFailed) <==> !Truthy(o.noMock) && mock.None?)
      && (mock.Some? ==> fresh(mock.value) && mock.value.Valid()
                         && mock.value.mocker == Merge(WatchFiles(watchPath, root.value), modules).value
                         && mock.value.bodyParserConfig == Mock.BodyParserConfig(Empty()))
      && (rap.Some? <==> mock.Some? && o.rap.enable)
      && (rap.Some? ==> fresh(rap.value) && rap.value.Valid() && rap.value.mocker == Empty()
                        && (rap.value.proxyServer.Some? <==> o.rap.cache == Bool(false)))
    ensures err == Some(MockerLoadFailed) ==>
      proxy.None? && app.layers == old(app.layers) && app.upgradeListeners == old(app.upgradeListeners)
    ensures err != Some(MockerLoadFailed) ==>
      && proxy.Some? && fresh(proxy.value) && proxy.value.proxy == Normalise(GetOption(conf).proxy)
      && app.layers == old(app.layers) + MockLayers(mock) + RapLayers(rap) + ProxyLayersOf(proxy.value.proxy)
      && (err == Some(ProxyInitFailed(PM.ProxyUnassigned)) <==> proxy.value.proxy.None?)
      && UpgradesMounted(old(app.upgradeListeners), app.upgradeListeners, proxy.value.proxy,
                         proxy.value.websocketProxies, if err.Some? then Some(err.value.e) else None)
  {
    var config := GetOption(conf);
    var failed;
    mock, rap, failed := MountMocks(app, watchPath, root, modules, config, moduleDir);
    if failed {
      return None, None, None, Some(MockerLoadFailed);
    }
    var p, e := MountProxy(app, config.proxy);
    proxy := Some(p);
    err := if e.Some? then Some(ProxyInitFailed(e.value)) else None;
  }

  /** The layers `init` registers for the rules it holds. */
  function ProxyLayersOf(rules: Option<seq<Rule>>): seq<Layer> {
    if rules.Some? then PM.ProxyLayers(rules.value) else []
  }

  /** The first half of `module.exports`: the mock middleware unless `noMock`,
      and behind it the remote-table middleware when `rap.enable`. `failed`
      stands for the mock middleware's constructor throwing. */
  method MountMocks(app: App, watchPath: string, root: Option<Dir>, modules: map<string, MockTable>,
                    config: Options, moduleDir: string)
    returns (mock: Option<Mock.MockMiddleware>, rap: Option<Rap.RapMiddleware>, failed: bool)
    requires ValidModules(modules)
    modifies app`layers
    ensures mock.Some? <==> !Truthy(config.noMock) && root.Some? && Merge(WatchFiles(watchPath, root.value), modules).Some?
    ensures failed <==> !Truthy(config.noMock) && mock.None?
    ensures mock.Some? ==> && fresh(mock.value) && mock.value.Valid()
                           && mock.value.mocker == Merge(WatchFiles(watchPath, root.value), modules).value
                           && mock.value.bodyParserConfig == Mock.BodyParserConfig(Empty())
    ensures rap.Some? <==> mock.Some? && config.rap.enable
    ensures rap.Some? ==> && fresh(rap.value) && rap.value.Valid() && rap.value.mocker == Empty()
                          && (rap.value.proxyServer.Some? <==> config.rap.cache == Bool(false))
    ensures app.layers == old(app.layers) + MockLayers(mock) + RapLayers(rap)
  {
    mock, rap, failed := None, None, false;
    if !Truthy(config.noMock) {
      mock := Mock.NewMockMiddleware(watchPath, root, modules, Mock.BodyParserConfig(Empty()));
      if mock.None? {
        return None, None, true;
      }
      app.Use(MockLayer(mock.value));
      if config.rap.enable {
        var r := new Rap.RapMiddleware(watchPath,
          Rap.RapConfig(config.rap.url, config.rap.id, config.rap.appId, config.rap.appSecret, config.rap.cache), moduleDir);
        app.Use(RapLayer(r));
        rap := Some(r);
      }
    }
  }

  /** What `init` leaves behind for the `upgrade` event, from the listeners
      `before` to the listeners `after`, given the rules it holds and the
      forwarders `ws` it collected: nothing when the rules are unassigned (and
      `init` throws at once); otherwise one forwarder per WebSocket rule,
      registered in order, up to the first WebSocket rule without a target,
      where `init` throws. */
  ghost predicate UpgradesMounted(before: seq<Forwarder>, after: seq<Forwarder>, rules: Option<seq<Rule>>,
                                  ws: seq<Option<Forwarder>>, err: Option<PM.InitError>)
  {
    && (rules.None? ==> err == Some(PM.ProxyUnassigned) && after == before && ws == [])
    && (rules.Some? ==>
          && ws == PM.WsForwarders(rules.value)
          && (err.None? <==> forall i :: 0 <= i < |rules.value| && Truthy(Prop(rules.value[i], "ws")) ==>
                                           Truthy(Prop(rules.value[i], "target"))))
    && (rules.Some? && err.None? ==>
          && (forall i :: 0 <= i < |ws| ==> ws[i].Some?)
          && after == before + PM.Values(ws))
    && (rules.Some? && err.Some? ==>
          && err.value == PM.UpgradeOfUndefined
          && exists j :: && 0 <= j < |ws| && ws[j].None?
                         && (forall i :: 0 <= i < j ==> ws[i].Some?)
                         && after == before + PM.Values(ws[..j]))
  }

  /** `init` fails on the upgrade step exactly when some WebSocket rule has
      no target: its own promise about the listeners, restated over the rules. */
  lemma InitUpgrades(before: seq<Forwarder>, after: seq<Forwarder>, rules: Option<seq<Rule>>,
                     ws: seq<Option<Forwarder>>, err: Option<PM.InitError>)
    requires rules.None? ==> err == Some(PM.ProxyUnassigned) && after == before && ws == []
    requires rules.Some? ==> ws == PM.WsForwarders(rules.value)
    requires rules.Some? && err.None? ==>
               && (forall i :: 0 <= i < |ws| ==> ws[i].Some?)
               && after == before + PM.Values(ws)
    requires rules.Some? && err.Some? ==>
               && err.value == PM.UpgradeOfUndefined
               && exists j :: && 0 <= j < |ws| && ws[j].None?
                              && (forall i :: 0 <= i < j ==> ws[i].Some?)
                              && after == before + PM.Values(ws[..j])
    ensures UpgradesMounted(before, after, rules, ws, err)
  {
    if rules.Some? {
      PM.WsForwardersPresent(rules.value);
      if err.Some? {
        var j :| 0 <= j < |ws| && ws[j].None?;
        assert ws[j] in PM.WsForwarders(rules.value);
      } else {
        assert forall w :: w in PM.WsForwarders(rules.value) ==> w.Some?;
      }
    }
  }

  /** The second half of `module.exports`: `new ProxyMiddleware(config.proxy).init(app)`. */
  method MountProxy(app: App, config: ProxyConfig) returns (proxy: PM.ProxyMiddleware, err: Option<PM.InitError>)
    requires config.ProxyTable? ==> config.props.Valid()
    requires config.ProxyTable? ==> forall k :: k in config.props.values && config.props.values[k].Obj? ==> config.props.values[k].props.Valid()
    modifies app
    ensures fresh(proxy) && proxy.proxy == Normalise(config)
    ensures app.layers == old(app.layers) + ProxyLayersOf(proxy.proxy)
    ensures err == Some(PM.ProxyUnassigned) <==> proxy.proxy.None?
    ensures UpgradesMounted(old(app.upgradeListeners), app.upgradeListeners, proxy.proxy, proxy.websocketProxies, err)
  {
    proxy := new PM.ProxyMiddleware(config);
    err := proxy.Init(app);
    InitUpgrades(old(app.upgradeListeners), app.upgradeListeners, proxy.proxy, proxy.websocketProxies, err);
  }

  /** Precedence: the mock middleware answers first; the remote table sees
      only what it passed on; the proxy rules see only what both passed on. */
  lemma Precedence(m: Mock.MockMiddleware, rap: Option<Rap.RapMiddleware>, rest: seq<Layer>, req: Request, env: Env)
    requires rap.Some? ==> rap.value.Valid()
    requires ValidLayers(rest)
    ensures ValidLayers(MockLayers(Some(m)) + RapLayers(rap) + rest)
    ensures Dispatch(MockLayers(Some(m)) + RapLayers(rap) + rest, req, env) ==
      if m.Handle(req, env) != Mock.Next then Mocked(m.Handle(req, env))
      else if rap.Some? && rap.value.Handle(req, env.matches) != Rap.RapNext then Remote(rap.value.Handle(req, env.matches))
      else Dispatch(rest, req, env)
  {
    var tail := RapLayers(rap) + rest;
    if rap.Some? {
      RunsFirst(RapLayer(rap.value), rest, req, env);
    }
    assert MockLayers(Some(m)) + RapLayers(rap) + rest == [MockLayer(m)] + tail;
    RunsFirst(MockLayer(m), tail, req, env);
  }

  /** A layer put in front of a stack sees the request first. */
  lemma RunsFirst(layer: Layer, rest: seq<Layer>, req: Request, env: Env)
    requires LayerValid(layer) && ValidLayers(rest)
    ensures ValidLayers([layer] + rest)
    ensures Dispatch([layer] + rest, req, env) == Resume(Visit(layer, req, env), rest, env)
  {
    var layers := [layer] + rest;
    assert layers[0] == layer && layers[1..] == rest;
    assert ValidLayers(layers) by {
      assert Objects(layers) == Footprint(layer) + Objects(rest);
    }
    DispatchStep(layers, req, env);
  }

  /** The proxy layers never answer as a mock: a request either reaches a
      proxy, falls through with its URL possibly rewritten, or is stopped by
      a boolean bypass. */
  lemma {:induction false} ProxyLayersOnlyProxy(rules: seq<Rule>, req: Request, env: Env)
    ensures ValidLayers(PM.ProxyLayers(rules))
    ensures var f := Dispatch(PM.ProxyLayers(rules), req, env); f.Proxied? || f.Fallthrough? || f.Unroutable?
    decreases |rules|
  {
    var layers := PM.ProxyLayers(rules);
    if rules != [] {
      var tail := rules[1..];
      assert layers[1..] == PM.ProxyLayers(tail) by {
        assert |layers[1..]| == |tail|;
        forall i | 0 <= i < |tail| ensures layers[1..][i] == PM.ProxyLayers(tail)[i] {
          assert tail[i] == rules[i + 1];
        }
      }
      DispatchStep(layers, req, env);
      var v := Visit(layers[0], req, env);
      if v.PassesOn? {
        ProxyLayersOnlyProxy(tail, v.req, env);
      }
    }
  }
}
