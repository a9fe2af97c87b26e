/** The proxy middleware object (src/middleware/proxy.js): its rules, the
    WebSocket forwarders it collects, and the registration `init` performs. */
module ProxyMiddleware {
  import opened Wrappers
  import opened OrderedMaps
  import opened JsValues
  import opened ProxyRules
  import opened Express

  /** The layers `init` registers: one per rule, in order, each with the
      middleware built for it. */
  function ProxyLayers(rules: seq<Rule>): (ls: seq<Layer>)
    ensures |ls| == |rules|
    ensures forall i :: 0 <= i < |rules| ==> ls[i] == ProxyLayer(rules[i], GetProxyMiddleware(rules[i]))
  {
    if rules == [] then []
    else ProxyLayers(rules[..|rules| - 1]) + [ProxyLayer(rules[|rules| - 1], GetProxyMiddleware(rules[|rules| - 1]))]
  }

  /** What `init` pushes to `websocketProxies`: the middleware of each rule
      with a truthy `ws`, `None` where that rule has no target. */
  function WsForwarders(rules: seq<Rule>): (ws: seq<Option<Forwarder>>)
    ensures |ws| <= |rules|
  {
    if rules == [] then []
    else
      var last := rules[|rules| - 1];
      WsForwarders(rules[..|rules| - 1]) + (if Truthy(Prop(last, "ws")) then [GetProxyMiddleware(last)] else [])
  }

  /** A WebSocket rule contributes a missing middleware exactly when it has no target. */
  lemma {:induction false} WsForwardersPresent(rules: seq<Rule>)
    ensures (forall w :: w in WsForwarders(rules) ==> w.Some?) <==>
            (forall i :: 0 <= i < |rules| && Truthy(Prop(rules[i], "ws")) ==> Truthy(Prop(rules[i], "target")))
  {
    if rules != [] {
      var init := rules[..|rules| - 1];
      WsForwardersPresent(init);
      assert forall i :: 0 <= i < |init| ==> init[i] == rules[i];
    }
  }

  /** One more rule is one more layer, and one more forwarder when it is a WebSocket rule. */
  lemma RegisterStep(rules: seq<Rule>, i: nat)
    requires i < |rules|
    ensures ProxyLayers(rules[..i + 1]) == ProxyLayers(rules[..i]) + [ProxyLayer(rules[i], GetProxyMiddleware(rules[i]))]
    ensures WsForwarders(rules[..i + 1]) ==
              WsForwarders(rules[..i]) + (if Truthy(Prop(rules[i], "ws")) then [GetProxyMiddleware(rules[i])] else [])
  {
    assert rules[..i + 1][..i] == rules[..i];
  }

  /** The forwarders of a list without gaps. */
  function Values(ws: seq<Option<Forwarder>>): (fs: seq<Forwarder>)
    requires forall i :: 0 <= i < |ws| ==> ws[i].Some?
    ensures |fs| == |ws| && forall i :: 0 <= i < |ws| ==> fs[i] == ws[i].value
  {
    if ws == [] then [] else Values(ws[..|ws| - 1]) + [ws[|ws| - 1].value]
  }

  /** Both ways `init` throws a TypeError. */
  datatype InitError =
    | ProxyUnassigned      // `this.proxy.forEach` on an unassigned `proxy`
    | UpgradeOfUndefined   // `wsProxy.upgrade` on a rule without middleware

  class ProxyMiddleware {
    /** The rules; `None` when the constructor left `this.proxy` unassigned. */
    const proxy: Option<seq<Rule>>
    var websocketProxies: seq<Option<Forwarder>>

    /** `new ProxyMiddleware(proxy)` */
    constructor(config: ProxyConfig)
      requires config.ProxyTable? ==> config.props.Valid()
      requires config.ProxyTable? ==> forall k :: k in config.props.values && config.props.values[k].Obj? ==> config.props.values[k].props.Valid()
      ensures proxy == Normalise(config) && websocketProxies == []
    {
      proxy := Normalise(config);
      websocketProxies := [];
    }

    /** `init(app)`: registers one layer per rule, then one `upgrade`
        listener per WebSocket rule. */
    method Init(app: App) returns (err: Option<InitError>)
      modifies this`websocketProxies, app
      ensures proxy.None? ==> && err == Some(ProxyUnassigned)
                              && app.layers == old(app.layers) && app.upgradeListeners == old(app.upgradeListeners)
                              && websocketProxies == old(websocketProxies)
      ensures proxy.Some? ==> && app.layers == old(app.layers) + ProxyLayers(proxy.value)
                              && websocketProxies == old(websocketProxies) + WsForwarders(proxy.value)
      ensures proxy.Some? && err.None? ==>
                && (forall i :: 0 <= i < |websocketProxies| ==> websocketProxies[i].Some?)
                && app.upgradeListeners == old(app.upgradeListeners) + Values(websocketProxies)
      ensures proxy.Some? && err.Some? ==>
                && err.value == UpgradeOfUndefined
                && exists j :: && 0 <= j < |websocketProxies| && websocketProxies[j].None?
                               && (forall i :: 0 <= i < j ==> websocketProxies[i].Some?)
                               && app.upgradeListeners == old(app.upgradeListeners) + Values(websocketProxies[..j])
    {
      if proxy.None? {
        return Some(ProxyUnassigned);
      }
      RegisterRules(app, proxy.value);
      err := RegisterUpgrades(app);
    }

    /** The first `forEach` of `init`: one layer per rule, and the WebSocket rules remembered. */
    method RegisterRules(app: App, rules: seq<Rule>)
      modifies this`websocketProxies, app`layers
      ensures app.layers == old(app.layers) + ProxyLayers(rules)
      ensures websocketProxies == old(websocketProxies) + WsForwarders(rules)
    {
      var i := 0;
      while i < |rules|
        invariant 0 <= i <= |rules|
        invariant app.layers == old(app.layers) + ProxyLayers(rules[..i])
        invariant websocketProxies == old(websocketProxies) + WsForwarders(rules[..i])
      {
        var proxyConfig := rules[i];
        var proxyMiddleware := GetProxyMiddleware(proxyConfig);
        RegisterStep(rules, i);
        if Truthy(Prop(proxyConfig, "ws")) {
          websocketProxies := websocketProxies + [proxyMiddleware];
        }
        app.Use(ProxyLayer(proxyConfig, proxyMiddleware));
        i := i + 1;
      }
      assert rules[..i] == rules;
    }

    /** The second `forEach` of `init`: one `upgrade` listener per remembered
        middleware, stopping with a TypeError at the first missing one. */
    method RegisterUpgrades(app: App) returns (err: Option<InitError>)
      modifies app`upgradeListeners
      ensures err.None? ==>
                && (forall i :: 0 <= i < |websocketProxies| ==> websocketProxies[i].Some?)
                && app.upgradeListeners == old(app.upgradeListeners) + Values(websocketProxies)
      ensures err.Some? ==>
                && err.value == UpgradeOfUndefined
                && exists j :: && 0 <= j < |websocketProxies| && websocketProxies[j].None?
                               && (forall i :: 0 <= i < j ==> websocketProxies[i].Some?)
                               && app.upgradeListeners == old(app.upgradeListeners) + Values(websocketProxies[..j])
    {
      var j := 0;
      while j < |websocketProxies|
        invariant 0 <= j <= |websocketProxies|
        invariant forall k :: 0 <= k < j ==> websocketProxies[k].Some?
        invariant app.upgradeListeners == old(app.upgradeListeners) + Values(websocketProxies[..j])
      {
        var wsProxy := websocketProxies[j];
        assert websocketProxies[..j + 1][..j] == websocketProxies[..j];
        if wsProxy.None? {
          return Some(UpgradeOfUndefined);
        }
        app.OnUpgrade(wsProxy.value);
        j := j + 1;
      }
      assert websocketProxies[..j] == websocketProxies;
      err := None;
    }
  }
}
