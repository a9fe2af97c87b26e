# mocker-api, modelled in Dafny

This project models the core of mocker-api, an Express add-on for development servers. It answers API requests from three sources, in order:

- **Mock files.** A table of `"METHOD /path"` keys, loaded from the files under a watched directory. Each key maps to a static JSON value or a responder function. The table is reloaded when a file is added or changed.
- **A remote mock repository.** Its interfaces are fetched once at start-up, reconciled with a local cache file by their update timestamps, and given payload templates. The entries are then served offline. When caching is off, a matched request is forwarded to the repository's live mock server instead.
- **Proxy rules.** http-proxy-middleware forwarders, each with an optional `bypass` function that can rewrite the URL or skip the proxy.

The model covers each part of that:

- the options and their defaults, and the registration order mock, remote table, proxy (`Wiring`);
- how the mock table is listed, merged with `Object.assign` and hot-reloaded (`MockFiles`, `MockMiddleware`);
- the route lookup shared by the two tables (`RouteLookup`);
- the body-parser choice and the preflight rule (`MockMiddleware`);
- `req.params` extraction (`Params`);
- the remote client's token, repository and cache rules, reconciliation, payload filling and progress counter (`RapClient`, `Progress`);
- the remote-table middleware (`RapMiddleware`);
- proxy rule normalisation, the per-request bypass decision and the registration loops (`ProxyRules`, `ProxyMiddleware`);
- the request running down the middleware stack, including a boolean bypass ending the run because Express's router cannot route a null URL (`Express`).

Some shared pieces support all of this:

- **Ordered objects.** JavaScript objects and `Map`s are `OrderedMaps.OrderedMap` values. Their key order is insertion order. Writing an existing key leaves it in place, and writing a new key appends it.
- **Values.** JavaScript values are `JsValues.Value`, and truthiness is modelled as `JsValues.Truthy`.
- **Foreign code.** Code outside the repository is given as parameters, not modelled. This covers path-to-regexp's match, its key list and its groups, `decodeURIComponent`, users' bypass functions, and http-proxy-middleware's context test. They are the fields of `Http.Env`.
- **The network and the file system.** These are values too:
  - `RapClient.Remote` holds the replies of the remote service;
  - `RapClient.Disk` holds the cache file;
  - `MockFiles.Dir` is the watched directory tree;
  - a map from path to exported table stands for the mock files.
- **Stateful objects.** Each object that the source updates in place is a class: the mock middleware, the remote client and its middleware, the progress bar, the proxy middleware and the application. Each loop is a method proved against a function that specifies it.

## Model

| member | source | states |
|---|---|---|
| OrderedMaps.Put | src/rapClient.js:117 | `map.set(k, v)`: the new value is stored under `k`; an existing key keeps its position, a new key is appended; well-formedness is kept |
| OrderedMaps.PutPut | src/utils/utils.js:18-19 | writing a name twice (decoded, then split) is the same as writing it once with the second value |
| OrderedMaps.AssignFirstValues | src/middleware/mock.js:56 | after the first `n` writes of `Object.assign`, the written keys hold the source's values and every other key keeps the target's |
| OrderedMaps.AssignFirstKeys | src/middleware/mock.js:56 | `Object.assign` keeps the target's keys in place and appends the new keys in the source's order, each once |
| OrderedMaps.AssignSpec | src/middleware/mock.js:56 | `Object.assign(t, s)`: keys are the union; `s` wins on shared keys; `t`'s other values are kept; order is `t`'s keys then the new ones |
| OrderedMaps.NewKeysMember | src/middleware/mock.js:56 | a key is appended by `Object.assign` iff the source has it and the target does not |
| JsValues.Or | src/middleware/proxy.js:35 | `v \|\| d` is `v` when `v` is truthy and `d` otherwise |
| Strings.SplitAtSeparator | src/middleware/mock.js:119 | `split(' ')`: the first piece is everything before the first separator, and the rest is split on its own |
| Strings.SplitJoin | src/utils/utils.js:19 | `split(d)` then joining with `d` gives back the string, and no piece contains `d` |
| RouteLookup.StripMethod | src/middleware/mock.js:78 | the `"<method> "` prefix is removed when present; otherwise the key is unchanged |
| RouteLookup.StripVerb | src/middleware/mock.js:83 | a key starting with `PUT `, `POST `, `GET ` or `DELETE ` is that prefix followed by the result; any other key is unchanged |
| RouteLookup.FindKey | src/middleware/mock.js:77-79 | `None` iff no key hits; otherwise the first key in table order that hits |
| RouteLookup.FindVerbKey | src/middleware/mock.js:83 | `None` iff no key matches once its verb is stripped; otherwise the first such key |
| RouteLookup.FirstHitWins | src/middleware/rap.js:33-35 | once a key hits, keys appended after the table cannot change the answer |
| MockFiles.JoinPath | src/middleware/mock.js:41 | a resolved child path is strictly longer than its directory |
| MockFiles.FilterCache | src/middleware/mock.js:46 | keeps exactly the paths without `_cache` |
| MockFiles.FilterCacheAppend | src/middleware/mock.js:40-49 | filtering distributes over concatenation, so subdirectory results can be spliced in place |
| MockFiles.WatchFilesAreFilteredFiles | src/middleware/mock.js:37-51 | the listing is the depth-first list of all files, in `readdirSync` order, with the `_cache` paths removed: nothing reordered, nothing else dropped |
| MockFiles.WatchFilesClean | src/middleware/mock.js:15-17 | every listed path is non-empty and contains no `_cache`, so the "Mocker file does not exist" check never fires |
| MockFiles.GetWatchFile | src/middleware/mock.js:37-51 | the recursive loop returns exactly the specified listing |
| MockFiles.Merge | src/middleware/mock.js:53-58 | the reduce fails iff some listed file fails to load; a successful result is a well-formed object |
| MockFiles.MergeKeepsPositions | src/middleware/mock.js:54-57 | the table built from a prefix of the file list is a prefix of the full table: a key keeps the position of its first file |
| MockFiles.MergeLastWins | src/middleware/mock.js:54-57 | a key holds the value exported by the last file that exports it |
| MockFiles.MergeKeys | src/middleware/mock.js:54-57 | the table has a key iff some listed file exports it |
| MockFiles.MergeReadsOnlyListedFiles | src/middleware/mock.js:25-29 | a reload reads only the files listed at construction: files outside the list do not change the table |
| MockFiles.GetConfig | src/middleware/mock.js:53-58 | the reduce loop returns the specified merge, `None` at the first file that fails to load |
| MockFiles.NoneExtends | src/middleware/mock.js:55 | one failing `require` fails the whole reduce |
| Params.MatchPath | src/utils/utils.js:9-21 | the key loop returns the specified result: `false` without a match, otherwise the params object, or a throw from `decodeURIComponent` |
| Params.FailureSticks | src/utils/utils.js:18 | once a decode throws, the call throws whatever keys follow |
| Params.DecodeFailsIff | src/utils/utils.js:14-20 | the call throws iff some present group fails to decode |
| Params.AssembledKeepsKeys | src/utils/utils.js:12-20 | the caller's `params` keys keep their positions and a well-formed object stays well formed |
| Params.AssembledUntouched | src/utils/utils.js:17 | a name that no present group writes keeps the caller's value (or stays absent); empty and missing groups are skipped |
| Params.AssembledWritten | src/utils/utils.js:18-19 | a name holds its last present group, decoded, and split on the key's delimiter when the key repeats |
| Params.NoMatchIff | src/utils/utils.js:11 | `pathMatch` returns `false` iff the regular expression does not match |
| Params.RepeatedPiecesJoin | src/utils/utils.js:19 | a repeated segment's pieces rejoin into the decoded segment, and none contains the delimiter |
| MockMiddleware.CutParams | src/middleware/mock.js:96 | `replace(/;.*$/, '')` yields a prefix of the header |
| MockMiddleware.CutParamsDropsParameters | src/middleware/mock.js:92-96 | `type; params` becomes `type` when the parameters hold no line terminator |
| MockMiddleware.CutParamsNoSemicolon | src/middleware/mock.js:96 | a header without `;` is unchanged |
| MockMiddleware.ChooseDecoder | src/middleware/mock.js:97-114 | a truthy `bodyParserConf` entry for the media type chooses the decoder; otherwise the built-in table does |
| MockMiddleware.DefaultChoice | src/middleware/mock.js:105-114 | with the empty mapping the entry point passes: `text/plain` is read raw, `text/html` as text, forms as urlencoded, and everything else as JSON (no header included); parameters do not matter |
| MockMiddleware.ConfiguredChoiceWins | src/middleware/mock.js:97-104 | a configured `raw`/`text`/`urlencoded`/`json` name wins over the built-in table, whatever the parameters |
| MockMiddleware.HitKey | src/middleware/mock.js:77-79 | a reported key is a non-empty table key that hits, and no earlier key hits; nothing is reported iff no key hits or the first key that hits is the empty string |
| MockMiddleware.Decide | src/middleware/mock.js:76-129 | raises no ReferenceError. Answers 200 to a preflight iff there is no hit, the method is OPTIONS and a verb-stripped key matches. Serves the hit key iff its value is truthy: sends the value, or calls the responder with the chosen decoder and the decoded params. Throws, with the responder never called, iff the value is a function and a captured group fails to decode while `req.params` is built. Otherwise calls `next()` |
| MockMiddleware.UndecodableParamThrows | src/middleware/mock.js:118-120 | table `{"GET /u/:id": <function>}`, request `GET /u/%zz`, and a decoder that rejects `%zz`: the handler throws while building `req.params` |
| MockMiddleware.RejectedParams | src/utils/utils.js:14-18 | in that example the template's one key captures `%zz`, whose decoding throws, so `pathMatch` throws |
| MockMiddleware.AsWrittenAgreesElsewhere | src/middleware/mock.js:82-87 | the handler as written agrees with the intended one except on unmatched OPTIONS requests |
| MockMiddleware.PreflightThrowsAsWritten | src/middleware/mock.js:83 | the free `mocker` makes the table `{"GET /api/x": {}}` throw on `OPTIONS /api/x`, where a 200 is intended |
| MockMiddleware.PreflightAnswered | src/middleware/mock.js:82-86 | an unmatched OPTIONS request is answered 200 whenever a verb-stripped key matches |
| MockMiddleware.MockMiddleware.constructor | src/middleware/mock.js:12-20 | stores the file list, the table and the body-parser configuration |
| MockMiddleware.MockMiddleware.OnWatchEvent | src/middleware/mock.js:25-35 | only `change`/`add` on paths without `_cache` reload; a successful reload replaces the table with the merge of the listed files; a failed one keeps the old table |
| MockMiddleware.NewMockMiddleware | src/middleware/mock.js:12-20 | construction succeeds iff the directory is readable and every listed file loads; the object holds the listing and its merge |
| Progress.KeepUnlessGiven | src/utils/progressBar.js:28-29 | `given \|\| current` on counts: a nonzero given wins; the result is one of the two, and zero only when both are |
| Progress.ProgressBar.constructor | src/utils/progressBar.js:7-14 | title defaults to `Progress`, length to 25; counter starts at 0 |
| Progress.ProgressBar.Tick | src/utils/progressBar.js:16-23 | the counter grows by one and one frame with the new count is drawn |
| Progress.ProgressBar.Update | src/utils/progressBar.js:25-35 | a falsy count keeps the previous value; one frame is drawn |
| RapClient.InheritedOnly | src/rapClient.js:9-10 | the inherited keys visited are those not shadowed by an own key |
| RapClient.ForInKeys | src/rapClient.js:9 | `for...in` visits the own keys first, then only keys that are not own |
| RapClient.ObjectToMap | src/rapClient.js:7-15 | the Map holds exactly the own properties, in order; inherited ones are skipped |
| RapClient.MapToObject | src/rapClient.js:16-22 | the object holds exactly the Map's entries, in order, with no prototype |
| RapClient.Record | src/rapClient.js:104-116 | a cached record under the interface's path with the same sync time is copied whole; otherwise the record is `{id, path, syncTime}` with no data |
| RapClient.ReconcileValid | src/rapClient.js:101-120 | the path map is a well-formed Map |
| RapClient.ReconcileKeys | src/rapClient.js:101-120 | the path map holds exactly the remote interfaces' keys; cache-only entries are dropped |
| RapClient.ReconcileLastWins | src/rapClient.js:117 | a key's entry is the record of the last interface with that key |
| RapClient.ReconcileKeepsPositions | src/rapClient.js:117 | a key keeps the position of its first interface |
| RapClient.ReconcileWellKeyed | src/rapClient.js:105-117 | against a cache whose entries sit under their own paths, every entry sits under its own path |
| RapClient.FillFailsIff | src/rapClient.js:135-142 | filling fails iff some entry without data has no payload to fetch |
| RapClient.FillKeys | src/rapClient.js:135-142 | a successful fill keeps every key in place |
| RapClient.FillValues | src/rapClient.js:135-142 | visited entries with data are untouched; the others carry the fetched payload |
| RapClient.FilledEntry | src/rapClient.js:135-142 | after a fill every entry has truthy data of its own or the payload fetched for its id |
| RapClient.TickFrames | src/rapClient.js:135-141 | one frame per entry in map order, labelled `跳过` (skipped) or `获取` (fetched) plus its path |
| RapClient.FetchCache | src/rapClient.js:129-146 | the loop computes the specified fill; the bar is titled `同步RAP接口Mock数据` with total = entry count; one tick per visited entry; all entries ticked on success |
| RapClient.PathsCache | src/rapClient.js:54-63 | `{}` without a cache file; the parsed object when the file parses; throws iff the file exists and cannot be parsed |
| RapClient.RepositoryOutcome | src/rapClient.js:77-94 | rejects iff the token request fails (only when no token is held), iff the repository request fails, or with `errMsg` iff the reply says `isOk === false`; otherwise resolves with `resp.data` |
| RapClient.Transform | src/rapClient.js:95-128 | `null` data throws before the cache is read; an unreadable cache throws next; data without `modules` throws after the cache read; a result is well-formed and comes from present data |
| RapClient.TokenReused | src/rapClient.js:79-81 | with a truthy token the token reply changes nothing |
| RapClient.MockerOutcome | src/rapClient.js:41-53 | a failed repository request always rejects: the cache read in the catch block is discarded; an unreadable cache replaces the error; a fetched repository that transforms resolves with that table |
| RapClient.MockerTable | src/rapClient.js:41-53 | a successful sync holds exactly the remote interfaces' keys, each with data it had or the payload fetched for its id |
| RapClient.CachedEntryKept | src/rapClient.js:111-117 | an interface whose cached record has the same sync time and data keeps that record, unchanged, in the synced table |
| RapClient.BuildPathMap | src/rapClient.js:101-120 | the nested `forEach` builds the reconciliation of all interfaces, module by module |
| RapClient.SetInterfaces | src/rapClient.js:103-119 | one module's interfaces extend the reconciliation in order |
| RapClient.RapClient.constructor | src/rapClient.js:29-40 | the cache directory is `<watchPath or the client's directory>/_cache`; the token starts empty |
| RapClient.RapClient.GetToken | src/rapClient.js:64-76 | stores the reply's token; a failed request leaves it |
| RapClient.RapClient.GetRepository | src/rapClient.js:77-94 | settles as specified and requests a token only when the held one is falsy |
| RapClient.RapClient.TransformRepository | src/rapClient.js:95-128 | the loops and the fill give the specified transform, returned as a prototype-less object |
| RapClient.RapClient.GetRapMocker | src/rapClient.js:41-53 | settles as the specified outcome and leaves the token as specified |
| RapMiddleware.OfflinePayload | src/middleware/rap.js:41 | `{isOk: false, errMsg: '缓存中未缓存mock规则，无法离线mock'}` |
| RapMiddleware.Decide | src/middleware/rap.js:32-48 | `next()` iff no key hits or the first key that hits is the empty string; forwards iff the first key that hits is non-empty and there is a proxy server; otherwise serves the hit entry's data, or the offline payload when the data is falsy |
| RapMiddleware.ServesFirstMatch | src/middleware/rap.js:33-42 | offline, the first matching entry is served and later ones are never read |
| RapMiddleware.ForwardIgnoresEntries | src/middleware/rap.js:37-39 | with a proxy server the entries' contents never matter |
| RapMiddleware.RapMiddleware.constructor | src/middleware/rap.js:7-16 | the table starts `{}`; a proxy server to `${url}/app/mock/${id}` exists iff `cache === false`; the client's cache lives under the module's directory |
| RapMiddleware.RapMiddleware.UpdateMocker | src/middleware/rap.js:29-31 | the table is replaced as a whole |
| RapMiddleware.RapMiddleware.CompleteSync | src/middleware/rap.js:27 | a resolved sync replaces the table; a rejected one leaves it |
| ProxyRules.CorrectContext | src/middleware/proxy.js:12-14 | `*` becomes `**`; otherwise one trailing `/*` is removed |
| ProxyRules.BaseOptions | src/middleware/proxy.js:16-24 | a string value gives `{context, target}`; any other value is copied and its `context` overwritten |
| ProxyRules.DefaultLogLevel | src/middleware/proxy.js:26 | `logLevel` becomes `logLevel \|\| 'warn'`, always truthy; nothing else changes |
| ProxyRules.RuleFor | src/middleware/proxy.js:10-28 | the rule built for one key: corrected context, a truthy log level, and the value's other properties |
| ProxyRules.StringRuleKeys | src/middleware/proxy.js:16-26 | a string value gives the keys `context`, `target`, `logLevel`, in that order |
| ProxyRules.Normalise | src/middleware/proxy.js:4-31 | an array leaves `proxy` unassigned; an object with an own `target` is the only rule; otherwise one rule per key, in key order |
| ProxyRules.StarContextExample | src/middleware/proxy.js:12-20 | `{'*': url}` proxies `**` to `url` at `warn` |
| ProxyRules.SlashStarContextExample | src/middleware/proxy.js:12-14 | the context `/api/*` becomes `/api` |
| ProxyRules.GetProxyMiddleware | src/middleware/proxy.js:34-42 | a forwarder exists iff `target` is truthy; it matches `context`, or `path` when `context` is falsy |
| ProxyRules.TableRulesUseContext | src/middleware/proxy.js:35 | a rule built from a table key matches on its corrected context whenever that context is non-empty |
| ProxyRules.EmptyContextFallsBack | src/middleware/proxy.js:35 | the keys `"/*"` and `""` are the only ones whose corrected context is empty. That context is falsy, so their rules match on `path` |
| ProxyRules.Step | src/middleware/proxy.js:68-88 | a boolean bypass result sets `req.url = null` and skips; a string rewrites `req.url` and skips; otherwise the forwarder takes the request, or `next()` without one |
| ProxyRules.NoBypassNoRewrite | src/middleware/proxy.js:71-74 | without a bypass function the URL is never rewritten |
| ProxyRules.AnyBooleanSkips | src/middleware/proxy.js:76-79 | a bypass returning `false` skips the proxy just as `true` does |
| Express.App.Use | src/middleware/mock.js:130-132 | `app.use` appends one layer |
| Express.Visit | src/middleware/proxy.js:71-88 | one layer's handler. A proxy layer ends the run only by handing the request to a forwarder whose context matches it, or through a boolean bypass, which leaves `req.url` null. When it passes the request on, only `req.url` may change, and only to the string a bypass returned |
| Express.Dispatch | src/middleware/proxy.js:76-88 | an empty stack falls through with the request unchanged; a forwarder takes only requests its context matches |
| Express.DispatchRewritesOnlyUrl | src/middleware/proxy.js:76-83 | only `req.url` is rewritten on the way down. A run that ends unroutable has a null URL. One that falls through or is proxied keeps its URL or carries a bypass's string |
| Express.BooleanBypassStops | src/middleware/proxy.js:76-79 | a bypass that returns a boolean sets `req.url` to null and calls `next()`. The router cannot route a null URL, so no later layer sees the request |
| Express.App.OnUpgrade | src/middleware/proxy.js:93-95 | `app.on('upgrade', ...)` appends one listener |
| ProxyMiddleware.ProxyLayers | src/middleware/proxy.js:45-92 | one layer per rule, in order, each with its forwarder |
| ProxyMiddleware.WsForwardersPresent | src/middleware/proxy.js:55-57 | the WebSocket list has no gap iff every `ws` rule has a truthy `target` |
| ProxyMiddleware.ProxyMiddleware.constructor | src/middleware/proxy.js:4-33 | `proxy` is the normalised configuration; no WebSocket forwarders yet |
| ProxyMiddleware.ProxyMiddleware.Init | src/middleware/proxy.js:44-96 | throws at once when `proxy` is unassigned; otherwise registers every rule's layer and records each `ws` rule's forwarder, then registers upgrade listeners up to the first missing forwarder, where it throws |
| ProxyMiddleware.ProxyMiddleware.RegisterRules | src/middleware/proxy.js:45-92 | the first loop appends the specified layers and forwarders |
| ProxyMiddleware.ProxyMiddleware.RegisterUpgrades | src/middleware/proxy.js:93-95 | the second loop registers every forwarder, or stops at the first missing one |
| Wiring.MergeLeaf | src/index.js:20-23 | an `undefined` option keeps its default; any other value replaces it |
| Wiring.GetOption | src/index.js:19-26 | the defaults `noMock: false`, `proxy: {}`, `rap.cache: true`; `rap.enable` iff url, id, appId and appSecret are all truthy |
| Wiring.Defaults | src/index.js:6-17 | with nothing configured, mocking is on, the remote table is off and there are no proxy rules |
| Wiring.Setup | src/index.js:28-55 | unless `noMock`, the mock middleware is built with empty body-parser settings and registered, then the remote-table middleware when `rap.enable`; a mock failure throws before anything else is registered; then the proxy layers and upgrade listeners follow as `Wiring.UpgradesMounted` states |
| Wiring.MountMocks | src/index.js:32-48 | the mock middleware, then the remote-table middleware, appended in that order |
| Wiring.InitUpgrades | src/middleware/proxy.js:44-96 | `init`'s upgrade step fails iff some WebSocket rule has no truthy `target` |
| Wiring.MountProxy | src/index.js:49-50 | the proxy middleware's layers are appended; it throws at once, registering nothing, iff `proxy` was an array; otherwise one upgrade listener per WebSocket rule is appended, and it throws at the first WebSocket rule without a target |
| Wiring.RunsFirst | src/index.js:32-50 | a layer registered before a stack sees the request first, and the stack runs only on what it passes on |
| Wiring.Precedence | src/index.js:32-50 | the mock table answers first; the remote table sees only what it passed on; the proxy layers see only what both passed on |
| Wiring.ProxyLayersOnlyProxy | src/middleware/proxy.js:58-89 | the proxy layers hand the request to a forwarder, pass it on, or end its run through a boolean bypass; they never answer as a mock or as the remote table |

## Left out

- path-to-regexp, `decodeURIComponent`, http-proxy-middleware and http-proxy are not modelled. Their answers are parameters (`Http.Env`), and forwarding is recorded, not performed.
- `MockFiles.JoinPath`: the watch path is taken as absolute and normalised, with no trailing slash. `PATH.resolve` would first make a relative watch path absolute against the working directory, and the `_cache` test (src/middleware/mock.js:46) then runs on that absolute path. The model does not cover that step.
- Mock.js (`Mock.mock`) is not modelled. Templates are served as given.
- body-parser is not run. The model records which decoder is chosen, not its options or the body it produces. The `bodyParserJSON` options read from the global `config` (src/middleware/mock.js:90) are not modelled.
- The responder functions' own behaviour is not modelled. They are known only by identity.
- `res.json`, `res.sendStatus` and `res.setHeader` are recorded as outcomes. No response is written.
- chokidar is not modelled; watch events are inputs. `cleanCache` and `clear-module` are not modelled either: a reload re-reads the given exports.
- `fs` reads are the `Dir` and `Disk` values. `saveCacheFile` (src/rapClient.js:154-159) is not modelled, because the written file is never read back in the same run except through `require`'s cache. Its failure path is left out with it: a `mkdir` or write error would reject `transformRepository`, and so the whole sync, after the table was built.
- `request-promise` calls are the `Remote` value. The order of asynchronous steps, and requests overlapping a running sync, are not modelled.
- Logging, colours and terminal rendering are not modelled: `logger`, `ProgressBar.render` and `done`, and `logUpdate`. The progress bar keeps its counters and the frames it would draw, not the drawn text, percentage or floating-point cell count.
- Integer-like keys are not modelled. JavaScript enumerates them before other keys, but the ordered objects here keep insertion order for every key.
- Numbers are integers. `new Date(updatedAt).getTime()` is given as `syncTime`.
- Malformed replies are not modelled beyond `null` repository data and data without a `modules` list (`RapClient.RepositoryData`). A module without `interfaces`, or a non-object cache entry, are examples.
- Function items in the proxy list are not modelled. The constructor leaves an array configuration unassigned, so `init` never reaches them.
- Non-object `proxy` configurations (a string or a number) are not modelled.
- `MockMiddleware.ResponderParams`: a key without a second space-separated word yields `None`. path-to-regexp's handling of an `undefined` template is not modelled.
- `Wiring.GetOption`: lodash's deep `mergeWith` is modelled field by field. An object or array given for `proxy` replaces the empty default, and nested objects inside it are taken as given. The unused defaults (`changeHost`, `httpProxy`, the `bodyParser*` objects) are left out.
- `MockMiddleware.Decide`: for a parameter that does not decode, the outcome only records that the handler threw. Express answers such an error with 500 when it is thrown synchronously. It escapes Express when body-parser calls back after reading a body. The model does not tell these two apart.
- `Express.Dispatch`: the run stops only on the null URL a boolean bypass sets. A bypass string whose parsed pathname is null, such as `""` or `"?q"`, would also stop Express's router, and the model does not cover it. The final handler's response to an ended run is not modelled.
- The function `module.exports` returns, which only calls `next()`, is not modelled.
- `getRapMocker` reads the cache on failure and then rethrows (src/rapClient.js:46-49), so a failed sync never falls back to the cached table. The model follows the code (`RapClient.MockerOutcome`).
- `RapClient.PathsCache`: `require` caches the parsed file, so a second read in the same process returns the first result. Here every read consults the `Disk` value.

## Findings

| source | as written | input that shows it | evidently intended | confidence | as-written member | corrected member |
|---|---|---|---|---|---|---|
| src/middleware/mock.js:83 | the preflight rule searches `Object.keys(mocker)`, a free identifier, so evaluating it throws a ReferenceError | table `{"GET /api/x": {}}`, request `OPTIONS /api/x` | search `this.mocker` and answer 200 when a PUT/POST/GET/DELETE key matches the path | high, not executed | MockMiddleware.DecideAsWritten, MockMiddleware.PreflightThrowsAsWritten | MockMiddleware.Decide, MockMiddleware.PreflightAnswered |
