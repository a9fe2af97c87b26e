/** The mock middleware (src/middleware/mock.js): the table loaded from the
    watched directory, its hot reload, and what it does with a request. */
module MockMiddleware {
  import opened Wrappers
  import opened Strings
  import opened OrderedMaps
  import opened JsValues
  import opened RouteLookup
  import opened MockFiles
  import opened Http
  import Params

  // ---------------------------------------------------------------- decoders

  /** The body-parser a matched request is decoded with. */
  datatype Decoder = Json | Raw | Text | Urlencoded

  /** `bodyParserConf`: content type to decoder name. The decoders' own
      option objects are not modelled. */
  datatype BodyParserConfig = BodyParserConfig(bodyParserConf: OrderedMap<Value>)

  predicate LineTerminator(c: char) {
    c == '\n' || c == '\r' || c == '\U{2028}' || c == '\U{2029}'
  }

  predicate NoLineTerminator(s: string) {
    forall i :: 0 <= i < |s| ==> !LineTerminator(s[i])
  }

  /** `s.replace(/;.*$/, '')`: the leftmost `;` from which no line
      terminator follows starts the part that is cut. */
  function CutParams(s: string): (r: string)
    ensures |r| <= |s| && r == s[..|r|]
  {
    if s == [] then s
    else if s[0] == ';' && NoLineTerminator(s[1..]) then []
    else [s[0]] + CutParams(s[1..])
  }

  /** The parameters after the first `;` never affect the media type. */
  lemma {:induction false} CutParamsDropsParameters(t: string, p: string)
    requires ';' !in t && NoLineTerminator(p)
    ensures CutParams(t + ";" + p) == t
  {
    if t == [] {
      assert (t + ";" + p)[1..] == p;
    } else {
      assert (t + ";" + p)[1..] == t[1..] + ";" + p;
      CutParamsDropsParameters(t[1..], p);
    }
  }

  /** A value without `;` is its own media type. */
  lemma {:induction false} CutParamsNoSemicolon(t: string)
    requires ';' !in t
    ensures CutParams(t) == t
  {
    if t != [] {
      assert t == [t[0]] + t[1..];
      CutParamsNoSemicolon(t[1..]);
    }
  }

  /** The property key `bodyParserConf[contentType]` reads: the cut content
      type, or "undefined" when the request has no Content-Type. */
  function ConfKey(contentType: Option<string>): string {
    if contentType.None? then "undefined" else CutParams(contentType.value)
  }

  /** The decoder named by a configured mapping; an unknown name leaves the JSON default. */
  function NamedDecoder(name: Value): Decoder {
    if name == Str("raw") then Raw
    else if name == Str("text") then Text
    else if name == Str("urlencoded") then Urlencoded
    else Json
  }

  /** The built-in table used when no mapping is configured for the type. */
  function DefaultDecoder(contentType: Option<string>): Decoder {
    if contentType.None? then Json
    else
      var t := CutParams(contentType.value);
      if t == "text/plain" then Raw
      else if t == "text/html" then Text
      else if t == "application/x-www-form-urlencoded" then Urlencoded
      else Json
  }

  /** mock.js:90-114: a truthy configured mapping for the media type wins;
      otherwise the built-in table decides; anything else is JSON. */
  function ChooseDecoder(conf: BodyParserConfig, contentType: Option<string>): (d: Decoder)
    ensures Truthy(Prop(conf.bodyParserConf, ConfKey(contentType))) ==>
              d == NamedDecoder(Prop(conf.bodyParserConf, ConfKey(contentType)))
    ensures !Truthy(Prop(conf.bodyParserConf, ConfKey(contentType))) ==> d == DefaultDecoder(contentType)
  {
    var mapped := Prop(conf.bodyParserConf, ConfKey(contentType));
    if Truthy(mapped) then NamedDecoder(mapped) else DefaultDecoder(contentType)
  }

  /** With the empty mapping the wiring always passes, the choice is the
      built-in table: text/plain is read raw, text/html as text, forms as
      urlencoded, everything else (no Content-Type included) as JSON, and
      parameters such as `; charset=UTF-8` do not matter. */
  lemma DefaultChoice(t: string, p: string)
    requires ';' !in t && NoLineTerminator(p)
    ensures var empty := BodyParserConfig(Empty());
      && ChooseDecoder(empty, Some(t + ";" + p)) == ChooseDecoder(empty, Some(t))
      && ChooseDecoder(empty, Some(t)) == (if t == "text/plain" then Raw
                                          else if t == "text/html" then Text
                                          else if t == "application/x-www-form-urlencoded" then Urlencoded
                                          else Json)
      && ChooseDecoder(empty, None) == Json
  {
    CutParamsDropsParameters(t, p);
    CutParamsNoSemicolon(t);
  }

  /** A configured decoder name wins over the built-in table, whatever the parameters. */
  lemma ConfiguredChoiceWins(conf: BodyParserConfig, t: string, p: string, name: string)
    requires ';' !in t && NoLineTerminator(p)
    requires name in {"raw", "text", "urlencoded", "json"}
    requires Prop(conf.bodyParserConf, t) == Str(name)
    ensures ChooseDecoder(conf, Some(t + ";" + p)) ==
            (if name == "raw" then Raw else if name == "text" then Text
             else if name == "urlencoded" then Urlencoded else Json)
  {
    CutParamsDropsParameters(t, p);
  }

  // ---------------------------------------------------------------- decision

  /** What the responder branch hands a responder function as `req.params`:
      the key's second space-separated word is the template. `None` when the
      key has no second word (path-to-regexp's handling of that is not modelled). */
  function ResponderParams(key: string, req: Request, env: Env): Option<Params.MatchResult> {
    var words := Split(key, ' ');
    if |words| < 2 then None
    else
      var template := words[1];
      Some(Params.PathMatch(env.keysOf(template), env.exec(template, req.pathname), env.decode, None))
  }

  datatype Action =
    | CallResponder(fn: nat, params: Option<Params.MatchResult>)   // result(req, res, next)
    | SendJson(value: Value)                                        // res.json(result)

  datatype MockOutcome =
    | Next                                                  // next()
    | Preflight                                             // res.sendStatus(200)
    | Respond(key: string, decoder: Decoder, action: Action) // after Access-Control-Allow-Origin: *
    | ParamsThrew(key: string, decoder: Decoder)            // decodeURIComponent threw while `req.params` was built
    | ReferenceError                                        // the handler threw

  /** The key `Object.keys(table).find(...)` reports, if it is truthy. */
  function HitKey(table: MockTable, req: Request, env: Env): (r: Option<string>)
    ensures r.Some? ==> r.value != "" && r.value in table.keys && Hit(r.value, req.verb, req.path, env.matches)
    ensures r.Some? ==> forall i :: 0 <= i < |table.keys| && table.keys[i] != r.value && Hit(table.keys[i], req.verb, req.path, env.matches) ==>
                          exists j :: 0 <= j < |table.keys| && table.keys[j] == r.value && j < i
    ensures r.None? <==> (forall i :: 0 <= i < |table.keys| ==> !Hit(table.keys[i], req.verb, req.path, env.matches))
                         || (exists i :: 0 <= i < |table.keys| && table.keys[i] == "" && Hit(table.keys[i], req.verb, req.path, env.matches)
                                         && forall j :: 0 <= j < i ==> !Hit(table.keys[j], req.verb, req.path, env.matches))
  {
    var found := FindKey(table.keys, req.verb, req.path, env.matches);
    if found.Some? && found.value != "" then found else None
  }

  /** The preflight rule's search, with the verb prefixes PUT, POST, GET and DELETE stripped. */
  predicate PreflightRoute(table: MockTable, req: Request, env: Env) {
    var k := FindVerbKey(table.keys, req.path, env.matches);
    k.Some? && k.value != ""
  }

  predicate IsPreflight(req: Request) {
    ToUpper(req.verb) == "OPTIONS"
  }

  /** The branch taken for a truthy hit. The header is set and the body
      parsed first; for a responder function, building `req.params` throws
      (and the responder is never called) when a captured group does not decode. */
  function RespondTo(key: string, value: Value, conf: BodyParserConfig, req: Request, env: Env): MockOutcome {
    var decoder := ChooseDecoder(conf, req.contentType);
    if value.Func? && ResponderParams(key, req, env) == Some(Params.DecodeFailed) then ParamsThrew(key, decoder)
    else Respond(key, decoder, if value.Func? then CallResponder(value.id, ResponderParams(key, req, env)) else SendJson(value))
  }

  /** `middleware(req, res, next)` with the preflight search over the table
      itself, as intended (mock.js:76-128). */
  function Decide(table: MockTable, conf: BodyParserConfig, req: Request, env: Env): (o: MockOutcome)
    ensures o != ReferenceError
    ensures o.Preflight? <==> HitKey(table, req, env).None? && IsPreflight(req) && PreflightRoute(table, req, env)
    ensures o.Respond? || o.ParamsThrew? <==> HitKey(table, req, env).Some? && Truthy(Prop(table, HitKey(table, req, env).value))
    ensures o.ParamsThrew? <==> && HitKey(table, req, env).Some?
                                && Prop(table, HitKey(table, req, env).value).Func?
                                && ResponderParams(HitKey(table, req, env).value, req, env) == Some(Params.DecodeFailed)
    ensures o.Respond? || o.ParamsThrew? ==>
              o == RespondTo(HitKey(table, req, env).value, Prop(table, HitKey(table, req, env).value), conf, req, env)
    ensures o.Respond? && o.action.CallResponder? ==> o.action.params != Some(Params.DecodeFailed)
  {
    var hit := HitKey(table, req, env);
    if hit.None? && IsPreflight(req) && PreflightRoute(table, req, env) then Preflight
    else if hit.Some? && Truthy(Prop(table, hit.value)) then RespondTo(hit.value, Prop(table, hit.value), conf, req, env)
    else Next
  }

  /** The same handler as written: the preflight condition reads the free
      identifier `mocker` (mock.js:83), which throws a ReferenceError
      whenever it is evaluated. */
  function DecideAsWritten(table: MockTable, conf: BodyParserConfig, req: Request, env: Env): MockOutcome {
    var hit := HitKey(table, req, env);
    if hit.None? && IsPreflight(req) then ReferenceError
    else if hit.Some? && Truthy(Prop(table, hit.value)) then RespondTo(hit.value, Prop(table, hit.value), conf, req, env)
    else Next
  }

  /** Outside an unmatched OPTIONS request the handler as written and as intended agree. */
  lemma AsWrittenAgreesElsewhere(table: MockTable, conf: BodyParserConfig, req: Request, env: Env)
    requires HitKey(table, req, env).Some? || !IsPreflight(req)
    ensures DecideAsWritten(table, conf, req, env) == Decide(table, conf, req, env)
  {
  }

  /** An unmatched OPTIONS request throws as written, also when a preflight
      answer was intended: a table `{"GET /api/x": {}}` and a request
      `OPTIONS /api/x`, with templates matching exactly themselves. */
  lemma PreflightThrowsAsWritten()
    ensures var table := Put(Empty<Value>(), "GET /api/x", Obj(Empty()));
            var req := Request("OPTIONS", "/api/x", "/api/x", Str("/api/x"), None);
            var env := ExactEnv();
      && DecideAsWritten(table, BodyParserConfig(Empty()), req, env) == ReferenceError
      && Decide(table, BodyParserConfig(Empty()), req, env) == Preflight
  {
    var table := Put(Empty<Value>(), "GET /api/x", Obj(Empty()));
    var req := Request("OPTIONS", "/api/x", "/api/x", Str("/api/x"), None);
    var env := ExactEnv();
    assert table.keys == ["GET /api/x"];
    assert "GET /api/x"[..8][0] == 'G';
    assert StripMethod("GET /api/x", "OPTIONS") == "GET /api/x";
    assert FindKey(table.keys, req.verb, req.path, env.matches) == None;
    assert HitKey(table, req, env) == None;
    assert StartsWith("GET /api/x", "GET ");
    assert StripVerb("GET /api/x") == "/api/x";
    assert FindVerbKey(table.keys, req.path, env.matches) == Some("GET /api/x");
    OptionsIsPreflight(req);
  }

  lemma OptionsIsPreflight(req: Request)
    requires req.verb == "OPTIONS"
    ensures IsPreflight(req)
  {
    var upper := ToUpper(req.verb);
    assert forall i :: 0 <= i < |upper| ==> upper[i] == req.verb[i];
    assert upper == req.verb;
  }

  /** A responder route whose parameter does not decode throws before the
      responder runs: a table `{"GET /u/:id": <function>}` and a request
      `GET /u/%zz`, where the group `%zz` is captured for `id` and
      decodeURIComponent rejects it. */
  lemma UndecodableParamThrows()
    ensures Decide(Put(Empty<Value>(), "GET /u/:id", Func(1)), BodyParserConfig(Empty()), PercentRequest(), RejectingEnv())
            == ParamsThrew("GET /u/:id", Json)
  {
    var key := "GET /u/:id";
    var table := Put(Empty<Value>(), key, Func(1));
    assert table.keys == [key] && table.values[key] == Func(1);
    assert FindKey(table.keys, "GET", "/u/%zz", RejectingEnv().matches) == Some(key);
    assert HitKey(table, PercentRequest(), RejectingEnv()) == Some(key);
    RejectedParams();
    assert ChooseDecoder(BodyParserConfig(Empty()), None) == Json;
  }

  lemma RejectedParams()
    ensures ResponderParams("GET /u/:id", PercentRequest(), RejectingEnv()) == Some(Params.DecodeFailed)
  {
    var key := "GET /u/:id";
    var env := RejectingEnv();
    RouteHasTemplate();
    var words := Split(key, ' ');
    var keys := env.keysOf(words[1]);
    assert keys == [Params.Key("id", false, '/')];
    assert env.exec(words[1], "/u/%zz") == Some([Some("%zz")]);
    assert Params.AssembleFirst(keys, [Some("%zz")], env.decode, Empty(), 1) == None;
  }

  /** The key `GET /u/:id` has a second word, its template. */
  lemma RouteHasTemplate()
    ensures |Split("GET /u/:id", ' ')| >= 2
  {
    var key := "GET /u/:id";
    SplitAtSeparator("GET", "/u/:id", ' ');
    assert key == "GET" + [' '] + "/u/:id" by {
      assert |key| == 10 && forall i :: 0 <= i < 10 ==> key[i] == ("GET" + [' '] + "/u/:id")[i];
    }
  }

  /** `GET /u/%zz` */
  function PercentRequest(): Request {
    Request("GET", "/u/%zz", "/u/%zz", Str("/u/%zz"), None)
  }

  /** Every template matches and captures `%zz` for its one key `id`, which
      decodeURIComponent rejects. */
  function RejectingEnv(): Env {
    Env((t: string, p: string) => true, (t: string) => [Params.Key("id", false, '/')],
        (t: string, p: string) => Some([Some("%zz")]), (s: string) => None,
        (f: nat, r: Request) => Undefined, (c: Value, r: Request) => false)
  }

  /** Templates that match exactly the path they spell. */
  function ExactEnv(): Env {
    Env((t: string, p: string) => t == p, (t: string) => [], (t: string, p: string) => None,
        (s: string) => Some(s), (f: nat, r: Request) => Undefined, (c: Value, r: Request) => false)
  }

  /** As intended, an OPTIONS request with no direct match is answered 200
      whenever some key matches once its PUT/POST/GET/DELETE prefix is
      stripped (a PATCH key does not count), before any value is looked at. */
  lemma PreflightAnswered(table: MockTable, conf: BodyParserConfig, req: Request, env: Env, i: nat)
    requires IsPreflight(req)
    requires forall j :: 0 <= j < |table.keys| ==> !Hit(table.keys[j], req.verb, req.path, env.matches)
    requires i < |table.keys| && table.keys[i] != "" && env.matches(StripVerb(table.keys[i]), req.path)
    requires forall j :: 0 <= j < i ==> !env.matches(StripVerb(table.keys[j]), req.path)
    ensures Decide(table, conf, req, env) == Preflight
  {
  }

  // ---------------------------------------------------------------- the middleware object

  datatype WatchEvent = Add | Change | Other(name: string)

  /** Only `change` and `add` events on paths without `_cache` reload (mock.js:26). */
  predicate Reloads(event: WatchEvent, path: string) {
    (event == Change || event == Add) && NotCache(path)
  }

  class MockMiddleware {
    /** The file list, fixed at construction: reloads re-read these files only. */
    const watchFiles: seq<string>
    /** The current table; a reload replaces it as a whole. */
    var mocker: MockTable
    const bodyParserConfig: BodyParserConfig

    ghost predicate Valid()
      reads this
    {
      mocker.Valid()
    }

    constructor(watchFiles: seq<string>, mocker: MockTable, bodyParserConfig: BodyParserConfig)
      requires mocker.Valid()
      ensures Valid()
      ensures this.watchFiles == watchFiles && this.mocker == mocker && this.bodyParserConfig == bodyParserConfig
    {
      this.watchFiles := watchFiles;
      this.mocker := mocker;
      this.bodyParserConfig := bodyParserConfig;
    }

    /** The watcher's handler (mock.js:25-35): a failed reload keeps the old table. */
    method OnWatchEvent(event: WatchEvent, path: string, modules: map<string, MockTable>)
      requires Valid() && ValidModules(modules)
      modifies this`mocker
      ensures Valid()
      ensures Reloads(event, path) && Merge(watchFiles, modules).Some? ==> mocker == Merge(watchFiles, modules).value
      ensures !(Reloads(event, path) && Merge(watchFiles, modules).Some?) ==> mocker == old(mocker)
    {
      if (event == Change || event == Add) && NotCache(path) {
        var loaded := GetConfig(watchFiles, modules);
        if loaded.Some? {
          mocker := loaded.value;
        }
      }
    }

    /** What the middleware does with a request against the current table. */
    function Handle(req: Request, env: Env): MockOutcome
      reads this
    {
      Decide(mocker, bodyParserConfig, req, env)
    }
  }

  /** `new MockMiddleware({watchPath, bodyParserConfig})` (mock.js:12-20):
      `None` when the constructor throws, because the watched directory
      cannot be read or a mock file fails to load. */
  method NewMockMiddleware(watchPath: string, root: Option<Dir>, modules: map<string, MockTable>,
                           bodyParserConfig: BodyParserConfig) returns (r: Option<MockMiddleware>)
    requires ValidModules(modules)
    ensures r.Some? <==> root.Some? && Merge(WatchFiles(watchPath, root.value), modules).Some?
    ensures r.Some? ==> && fresh(r.value) && r.value.Valid()
                        && r.value.watchFiles == WatchFiles(watchPath, root.value)
                        && r.value.mocker == Merge(r.value.watchFiles, modules).value
                        && r.value.bodyParserConfig == bodyParserConfig
  {
    if root.None? {
      return None;
    }
    var watchFiles := GetWatchFile(watchPath, root.value);
    WatchFilesClean(watchPath, root.value);
    if [] in watchFiles {
      // "Mocker file does not exist!": never taken, every listed path is non-empty
      assert false;
      return None;
    }
    var mocker := GetConfig(watchFiles, modules);
    if mocker.None? {
      return None;
    }
    var m := new MockMiddleware(watchFiles, mocker.value, bodyParserConfig);
    r := Some(m);
  }
}
