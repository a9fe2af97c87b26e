/** The part of the Express application the package touches: the middleware
    stack `app.use` appends to, the `upgrade` listeners `app.on` adds, and
    how a request runs down the stack, each layer either answering or
    calling `next()`. */
module Express {
  import opened Wrappers
  import opened Http
  import opened JsValues
  import opened ProxyRules
  import Mock = MockMiddleware
  import Rap = RapMiddleware

  /** A registered middleware, with the object it closes over. */
  datatype Layer =
    | MockLayer(mock: Mock.MockMiddleware)
    | RapLayer(rap: Rap.RapMiddleware)
    | ProxyLayer(rule: Rule, fwd: Option<Forwarder>)

  class App {
    var layers: seq<Layer>
    var upgradeListeners: seq<Forwarder>

    constructor()
      ensures layers == [] && upgradeListeners == []
    {
      layers := [];
      upgradeListeners := [];
    }

    /** `app.use(handler)` */
    method Use(layer: Layer)
      modifies this`layers
      ensures layers == old(layers) + [layer]
    {
      layers := layers + [layer];
    }

    /** `app.on('upgrade', fwd.upgrade)` */
    method OnUpgrade(fwd: Forwarder)
      modifies this`upgradeListeners
      ensures upgradeListeners == old(upgradeListeners) + [fwd]
    {
      upgradeListeners := upgradeListeners + [fwd];
    }
  }

  /** How a request leaves the stack. */
  datatype Final =
    | Mocked(mock: Mock.MockOutcome)                 // the mock middleware answered
    | Remote(rap: Rap.RapOutcome)                    // the remote-table middleware answered or forwarded
    | Proxied(fwd: Forwarder, req: Request)          // http-proxy-middleware took the request
    | Fallthrough(req: Request)                      // every layer called next()
    | Unroutable(req: Request)                       // next() with `req.url` null: the router stops and the final handler answers

  /** The objects the layers close over. */
  function Objects(layers: seq<Layer>): set<object> {
    (set l | l in layers && l.MockLayer? :: l.mock as object) + (set l | l in layers && l.RapLayer? :: l.rap as object)
  }

  /** The object one layer closes over. */
  function Footprint(layer: Layer): (r: set<object>)
    ensures layer.MockLayer? ==> layer.mock in r
    ensures layer.RapLayer? ==> layer.rap in r
  {
    if layer.MockLayer? then {layer.mock} else if layer.RapLayer? then {layer.rap} else {}
  }

  ghost predicate ValidLayers(layers: seq<Layer>)
    reads Objects(layers)
  {
    forall l :: l in layers && l.RapLayer? ==> l.rap in Objects(layers) && l.rap.Valid()
  }

  ghost predicate LayerValid(layer: Layer)
    reads Footprint(layer)
  {
    layer.RapLayer? ==> layer.rap.Valid()
  }

  /** What one layer does with a request: end its run, or call `next()` with it. */
  datatype Visited = Ends(f: Final) | PassesOn(req: Request)

  /** One layer's handler. A bypass may rewrite `req.url`;
      http-proxy-middleware passes on a request its context does not match.
      A boolean bypass sets `req.url` to null, which Express 4's router cannot
      parse: it skips every later layer and hands the request to the final handler. */
  function Visit(layer: Layer, req: Request, env: Env): (v: Visited)
    requires LayerValid(layer)
    reads Footprint(layer)
    ensures v.Ends? && v.f.Proxied? ==> env.contextMatches(v.f.fwd.context, v.f.req)
    ensures v.Ends? ==> OnlyUrlRewritten(v.f, req)
    ensures v.PassesOn? ==> v.req == req.(url := v.req.url) && (v.req.url == req.url || v.req.url.Str?)
  {
    match layer
    case MockLayer(m) =>
      var o := m.Handle(req, env);
      if o == Mock.Next then PassesOn(req) else Ends(Mocked(o))
    case RapLayer(r) =>
      var o := r.Handle(req, env.matches);
      if o == Rap.RapNext then PassesOn(req) else Ends(Remote(o))
    case ProxyLayer(rule, fwd) =>
      match Step(rule, fwd, req, env)
      case SkipTo(url) => if url == Null then Ends(Unroutable(req.(url := Null))) else PassesOn(req.(url := url))
      case PassOn => PassesOn(req)
      case ProxyVia(f) => if env.contextMatches(f.context, req) then Ends(Proxied(f, req)) else PassesOn(req)
  }

  /** The request run down `layers`, each layer ending the run or passing it on. */
  function Dispatch(layers: seq<Layer>, req: Request, env: Env): (f: Final)
    requires ValidLayers(layers)
    reads Objects(layers)
    ensures layers == [] ==> f == Fallthrough(req)
    ensures f.Proxied? ==> env.contextMatches(f.fwd.context, f.req)
    decreases |layers|
  {
    if layers == [] then Fallthrough(req)
    else
      assert layers[0] in layers;
      assert Footprint(layers[0]) <= Objects(layers) && Objects(layers[1..]) <= Objects(layers);
      match Visit(layers[0], req, env)
      case Ends(f) => f
      case PassesOn(next) => Dispatch(layers[1..], next, env)
  }

  /** How a run that ends with `f` may have changed the request it started with. */
  predicate OnlyUrlRewritten(f: Final, req: Request) {
    match f
    case Mocked(_) => true
    case Remote(_) => true
    case Unroutable(r) => r == req.(url := Null)
    case Fallthrough(r) => r == req.(url := r.url) && (r.url == req.url || r.url.Str?)
    case Proxied(_, r) => r == req.(url := r.url) && (r.url == req.url || r.url.Str?)
  }

  /** Only `req.url` is ever rewritten on the way down: a request that ends
      unroutable has a null URL, and one that falls through or is proxied
      keeps its URL or carries the string a bypass returned. */
  lemma {:induction false} DispatchRewritesOnlyUrl(layers: seq<Layer>, req: Request, env: Env)
    requires ValidLayers(layers)
    ensures OnlyUrlRewritten(Dispatch(layers, req, env), req)
    decreases |layers|
  {
    if layers != [] {
      DispatchStep(layers, req, env);
      var v := Visit(layers[0], req, env);
      if v.PassesOn? {
        DispatchRewritesOnlyUrl(layers[1..], v.req, env);
      }
    }
  }

  /** Where a run goes after a layer's visit `v`, with `rest` still to come. */
  function Resume(v: Visited, rest: seq<Layer>, env: Env): Final
    requires ValidLayers(rest)
    reads Objects(rest)
  {
    if v.Ends? then v.f else Dispatch(rest, v.req, env)
  }

  /** The run down a non-empty stack is the first layer's visit, then the rest. */
  lemma DispatchStep(layers: seq<Layer>, req: Request, env: Env)
    requires layers != [] && ValidLayers(layers)
    ensures LayerValid(layers[0]) && ValidLayers(layers[1..])
    ensures Dispatch(layers, req, env) == Resume(Visit(layers[0], req, env), layers[1..], env)
  {
    assert layers[0] in layers;
    assert Objects(layers[1..]) <= Objects(layers);
  }

  /** A proxy layer whose bypass returns a boolean ends the request's run:
      no later layer sees it, whatever those layers are. */
  lemma BooleanBypassStops(rule: Rule, fwd: Option<Forwarder>, rest: seq<Layer>, req: Request, env: Env)
    requires ValidLayers(rest)
    requires BypassUrl(rule, req, env).Bool?
    ensures ValidLayers([ProxyLayer(rule, fwd)] + rest)
    ensures Dispatch([ProxyLayer(rule, fwd)] + rest, req, env) == Unroutable(req.(url := Null))
  {
    assert ([ProxyLayer(rule, fwd)] + rest)[1..] == rest;
  }
}
