/** The request as the middleware reads it, and the answers of the foreign
    code the decisions depend on (path-to-regexp, decodeURIComponent, the
    user's bypass functions, http-proxy-middleware's context test), which
    are given rather than modelled. */
module Http {
  import opened Wrappers
  import opened JsValues
  import Params

  datatype Request = Request(
    verb: string,                  // req.method
    path: string,                  // req.path
    pathname: string,              // parse(req.url).pathname
    url: Value,                    // req.url, which a bypass rewrites
    contentType: Option<string>)   // req.get('Content-Type')

  datatype Env = Env(
    /** `!!pathToRegexp(template).exec(path)` */
    matches: (string, string) -> bool,
    /** the keys pathToRegexp(template, keys, {sensitive: false, strict: false, end: false}) collects */
    keysOf: string -> seq<Params.Key>,
    /** the groups that regular expression captures from a pathname; `None` when it does not match */
    exec: (string, string) -> Option<seq<Option<string>>>,
    /** decodeURIComponent; `None` where it throws */
    decode: Params.Decode,
    /** what the bypass function with this identity returns for this request */
    bypass: (nat, Request) -> Value,
    /** whether http-proxy-middleware's context matches this request */
    contextMatches: (Value, Request) -> bool)
}
