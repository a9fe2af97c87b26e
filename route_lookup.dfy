/** The key lookup shared by the mock and the remote-table middleware
    (src/middleware/mock.js:77-79 and src/middleware/rap.js:33-35): the
    table's keys are `"METHOD template"` strings, visited in table order; the
    request's own verb prefix is stripped from each key and the rest is
    compiled by path-to-regexp and matched against `req.path`.

    path-to-regexp itself is not modelled: `Matcher(template, path)` is the
    answer of `!!pathToRegexp(template).exec(path)`. */
module RouteLookup {
  import opened Wrappers
  import opened Strings

  type Matcher = (string, string) -> bool

  /** `key.replace(new RegExp('^' + verb + ' '), '')`. The verb is an
      HTTP verb, so the regular expression is a literal prefix. */
  function StripMethod(key: string, verb: string): (r: string)
    ensures StartsWith(key, verb + " ") ==> key == verb + " " + r
    ensures !StartsWith(key, verb + " ") ==> r == key
  {
    var prefix := verb + " ";
    if StartsWith(key, prefix) then key[|prefix|..] else key
  }

  /** `key.replace(/^(PUT|POST|GET|DELETE) /, '')`, the preflight rule's
      stripping (PATCH and the other verbs are kept). */
  function StripVerb(key: string): (r: string)
    ensures (exists v :: v in PreflightVerbs && StartsWith(key, v + " ")) ==> |r| < |key|
    ensures (forall v :: v in PreflightVerbs ==> !StartsWith(key, v + " ")) ==> r == key
    ensures forall v :: v in PreflightVerbs && StartsWith(key, v + " ") ==> key == v + " " + r
  {
    if StartsWith(key, "PUT ") then
      assert key[..4][1] == 'U' && key[..4][3] == ' ';
      key[4..]
    else if StartsWith(key, "POST ") then
      assert key[..5][1] == 'O';
      key[5..]
    else if StartsWith(key, "GET ") then
      assert key[..4][0] == 'G';
      key[4..]
    else if StartsWith(key, "DELETE ") then
      assert key[..7][0] == 'D';
      key[7..]
    else key
  }

  const PreflightVerbs: set<string> := {"PUT", "POST", "GET", "DELETE"}

  /** The key `Object.keys(table).find(...)` reports for a request. */
  predicate Hit(key: string, verb: string, path: string, matches: Matcher) {
    matches(StripMethod(key, verb), path)
  }

  /** `keys.find(k => Hit(k, ...))`: the first key in table order that hits. */
  function FindKey(keys: seq<string>, verb: string, path: string, matches: Matcher): (r: Option<string>)
    ensures r.None? <==> forall i :: 0 <= i < |keys| ==> !Hit(keys[i], verb, path, matches)
    ensures r.Some? ==> exists i :: 0 <= i < |keys| && keys[i] == r.value && Hit(keys[i], verb, path, matches)
                                   && forall j :: 0 <= j < i ==> !Hit(keys[j], verb, path, matches)
  {
    if keys == [] then None
    else if Hit(keys[0], verb, path, matches) then Some(keys[0])
    else
      var r := FindKey(keys[1..], verb, path, matches);
      assert forall i :: 1 <= i < |keys| ==> keys[i] == keys[1..][i - 1];
      r
  }

  /** `keys.find(k => !!pathToRegexp(StripVerb(k)).exec(path))` */
  function FindVerbKey(keys: seq<string>, path: string, matches: Matcher): (r: Option<string>)
    ensures r.None? <==> forall i :: 0 <= i < |keys| ==> !matches(StripVerb(keys[i]), path)
    ensures r.Some? ==> exists i :: 0 <= i < |keys| && keys[i] == r.value && matches(StripVerb(keys[i]), path)
                                   && forall j :: 0 <= j < i ==> !matches(StripVerb(keys[j]), path)
  {
    if keys == [] then None
    else if matches(StripVerb(keys[0]), path) then Some(keys[0])
    else
      var r := FindVerbKey(keys[1..], path, matches);
      assert forall i :: 1 <= i < |keys| ==> keys[i] == keys[1..][i - 1];
      r
  }

  /** The lookup is decided by the first hit: keys after it cannot change the answer. */
  lemma {:induction false} FirstHitWins(keys: seq<string>, rest: seq<string>, verb: string, path: string, matches: Matcher)
    requires FindKey(keys, verb, path, matches).Some?
    ensures FindKey(keys + rest, verb, path, matches) == FindKey(keys, verb, path, matches)
  {
    if !Hit(keys[0], verb, path, matches) {
      assert (keys + rest)[1..] == keys[1..] + rest;
      FirstHitWins(keys[1..], rest, verb, path, matches);
    }
  }
}
