/** The proxy configuration and the per-request bypass decision
    (src/middleware/proxy.js). A rule is the options object handed to
    http-proxy-middleware, kept as an ordered object. */
module ProxyRules {
  import opened Wrappers
  import opened Strings
  import opened OrderedMaps
  import opened JsValues
  import opened Http

  type Rule = OrderedMap<Value>

  /** The `proxy` option: an array, or an object given by its own properties. */
  datatype ProxyConfig = ProxyList(items: seq<Value>) | ProxyTable(props: OrderedMap<Value>)

  /** `context.replace(/^\*$/, '**').replace(/\/\*$/, '')`: each rewrite is applied once. */
  function CorrectContext(context: string): (r: string)
    ensures context == "*" ==> r == "**"
    ensures context != "*" && EndsWithStar(context) ==> context == r + "/*"
    ensures context != "*" && !EndsWithStar(context) ==> r == context
  {
    if context == "*" then "**"
    else if EndsWithStar(context) then context[..|context| - 2]
    else context
  }

  predicate EndsWithStar(s: string) {
    |s| >= 2 && s[|s| - 2..] == "/*"
  }

  /** The options object before `logLevel` is defaulted: `{context, target}`
      for a string, otherwise a shallow copy with `context` overwritten. */
  function BaseOptions(context: string, value: Value): (o: Rule)
    requires value.Obj? ==> value.props.Valid()
    ensures o.Valid()
    ensures Prop(o, "context") == Str(CorrectContext(context))
    ensures value.Str? ==> o.keys == ["context", "target"] && Prop(o, "target") == value && Prop(o, "logLevel") == Undefined
    ensures !value.Str? ==> forall k :: k != "context" ==> Prop(o, k) == Prop(OwnProps(value), k)
  {
    var corrected := Str(CorrectContext(context));
    if value.Str? then Put(Put(Empty(), "context", corrected), "target", value)
    else Put(OwnProps(value), "context", corrected)
  }

  /** `proxyOptions.logLevel = proxyOptions.logLevel || 'warn'` */
  function DefaultLogLevel(o: Rule): (r: Rule)
    requires o.Valid()
    ensures r.Valid()
    ensures Prop(r, "logLevel") == Or(Prop(o, "logLevel"), Str("warn")) && Truthy(Prop(r, "logLevel"))
    ensures forall k :: k != "logLevel" ==> Prop(r, k) == Prop(o, k)
    ensures "logLevel" !in o.values ==> r.keys == o.keys + ["logLevel"]
  {
    Put(o, "logLevel", Or(Prop(o, "logLevel"), Str("warn")))
  }

  /** The rule built for the key `context` of a table of rules. */
  function RuleFor(context: string, value: Value): (r: Rule)
    requires value.Obj? ==> value.props.Valid()
    ensures r.Valid()
    ensures Prop(r, "context") == Str(CorrectContext(context))
    ensures Truthy(Prop(r, "logLevel"))
    ensures value.Str? ==> Prop(r, "target") == value && Prop(r, "logLevel") == Str("warn")
    ensures !value.Str? ==> forall k :: k != "context" && k != "logLevel" ==> Prop(r, k) == Prop(OwnProps(value), k)
    ensures !value.Str? ==> Prop(r, "logLevel") == Or(Prop(OwnProps(value), "logLevel"), Str("warn"))
  {
    DefaultLogLevel(BaseOptions(context, value))
  }

  /** A string value gives the keys `context`, `target` and `logLevel`, in that order. */
  lemma StringRuleKeys(context: string, value: Value)
    requires value.Str?
    ensures RuleFor(context, value).keys == ["context", "target", "logLevel"]
  {
    var base := BaseOptions(context, value);
    assert base.keys == ["context", "target"];
    assert "logLevel" !in base.values;
  }

  /** `this.proxy` after the constructor; `None` when it is left unassigned (an array). */
  function Normalise(config: ProxyConfig): (r: Option<seq<Rule>>)
    requires config.ProxyTable? ==> config.props.Valid()
    requires config.ProxyTable? ==> forall k :: k in config.props.values && config.props.values[k].Obj? ==> config.props.values[k].props.Valid()
    ensures r.None? <==> config.ProxyList?
    ensures r.Some? && "target" in config.props.values ==> r.value == [config.props]
    ensures r.Some? && "target" !in config.props.values ==>
              && |r.value| == |config.props.keys|
              && forall i :: 0 <= i < |r.value| ==> r.value[i] == RuleFor(config.props.keys[i], config.props.values[config.props.keys[i]])
  {
    match config
    case ProxyList(_) => None
    case ProxyTable(props) =>
      if "target" in props.values then Some([props])
      else Some(seq(|props.keys|, i requires 0 <= i < |props.keys| => RuleFor(props.keys[i], props.values[props.keys[i]])))
  }

  /** A `*` key proxies everything; a key with a string value proxies to
      that string and logs at `warn`. */
  lemma StarContextExample()
    ensures RuleFor("*", Str("http://x")) == OrderedMap(["context", "target", "logLevel"],
              map["context" := Str("**"), "target" := Str("http://x"), "logLevel" := Str("warn")])
  {
    var r := RuleFor("*", Str("http://x"));
    StringRuleKeys("*", Str("http://x"));
    assert r.values.Keys == {"context", "target", "logLevel"} by {
      forall k ensures k in r.values <==> k in r.keys { }
    }
    assert Prop(r, "context") == Str("**");
  }

  /** A trailing slash-star is dropped from the context. */
  lemma SlashStarContextExample()
    ensures Prop(RuleFor("/api/*", Str("http://x")), "context") == Str("/api")
  {
    assert EndsWithStar("/api/*");
    assert "/api/*"[..4] == "/api";
    assert !EndsWithStar("/api");
  }

  /** What `http-proxy-middleware` is built with. */
  datatype Forwarder = Forwarder(context: Value, options: Rule)

  /** `getProxyMiddleware(proxyConfig)`: built only when `target` is truthy,
      matching `context`, or `path` when `context` is falsy. */
  function GetProxyMiddleware(rule: Rule): (r: Option<Forwarder>)
    ensures r.Some? <==> Truthy(Prop(rule, "target"))
    ensures r.Some? ==> r.value.options == rule
    ensures r.Some? && Truthy(Prop(rule, "context")) ==> r.value.context == Prop(rule, "context")
    ensures r.Some? && !Truthy(Prop(rule, "context")) ==> r.value.context == Prop(rule, "path")
  {
    if Truthy(Prop(rule, "target")) then Some(Forwarder(Or(Prop(rule, "context"), Prop(rule, "path")), rule)) else None
  }

  /** A rule built from a table key whose corrected context is non-empty
      matches on that context, not on `path`. */
  lemma TableRulesUseContext(context: string, value: Value)
    requires value.Obj? ==> value.props.Valid()
    requires Truthy(Prop(RuleFor(context, value), "target"))
    requires CorrectContext(context) != ""
    ensures GetProxyMiddleware(RuleFor(context, value)).value.context == Str(CorrectContext(context))
  {
  }

  // A table key "/*" or "" corrects to the empty context, which is
  // falsy, so its middleware matches on the rule's `path` instead.
  lemma EmptyContextFallsBack(context: string, value: Value)
    requires value.Obj? ==> value.props.Valid()
    requires Truthy(Prop(RuleFor(context, value), "target"))
    requires CorrectContext(context) == ""
    ensures context == "" || context == "/*"
    ensures GetProxyMiddleware(RuleFor(context, value)).value.context == Prop(RuleFor(context, value), "path")
  {
  }

  /** What one proxy layer does with a request. */
  datatype ProxyStep =
    | SkipTo(url: Value)          // `req.url = ...; next()`
    | ProxyVia(fwd: Forwarder)    // `proxyMiddleware(req, res, next)`
    | PassOn                      // `next()`

  /** `bypass(req, res, proxyConfig)` when the rule has a bypass function, `null` otherwise. */
  function BypassUrl(rule: Rule, req: Request, env: Env): Value {
    var bypass := Prop(rule, "bypass");
    if bypass.Func? then env.bypass(bypass.id, req) else Null
  }

  /** The handler `init` registers for a rule (proxy.js:58-89). */
  function Step(rule: Rule, fwd: Option<Forwarder>, req: Request, env: Env): (s: ProxyStep)
    ensures BypassUrl(rule, req, env).Bool? ==> s == SkipTo(Null)
    ensures BypassUrl(rule, req, env).Str? ==> s == SkipTo(BypassUrl(rule, req, env))
    ensures !BypassUrl(rule, req, env).Bool? && !BypassUrl(rule, req, env).Str? ==>
              s == (if fwd.Some? then ProxyVia(fwd.value) else PassOn)
  {
    var bypassUrl := BypassUrl(rule, req, env);
    if bypassUrl.Bool? then SkipTo(Null)
    else if bypassUrl.Str? then SkipTo(bypassUrl)
    else if fwd.Some? then ProxyVia(fwd.value)
    else PassOn
  }

  /** Without a bypass function the request goes to the forwarder when there
      is one, and on otherwise; the URL is rewritten only by a bypass. */
  lemma NoBypassNoRewrite(rule: Rule, fwd: Option<Forwarder>, req: Request, env: Env)
    requires !Prop(rule, "bypass").Func?
    ensures Step(rule, fwd, req, env) == (if fwd.Some? then ProxyVia(fwd.value) else PassOn)
  {
  }

  /** A bypass returning `false` skips the proxy just like `true` does. */
  lemma AnyBooleanSkips(rule: Rule, fwd: Option<Forwarder>, req: Request, env: Env)
    requires BypassUrl(rule, req, env) == Bool(false)
    ensures Step(rule, fwd, req, env) == SkipTo(Null)
  {
  }
}
