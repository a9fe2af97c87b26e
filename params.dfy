/** `Utils.pathMatch` (src/utils/utils.js:4-24): turns the groups captured
    by a route's regular expression into `req.params`.

    The regular expression is not modelled: `keys` is the key list
    path-to-regexp fills while compiling the template, and `m` is the answer
    of `re.exec(pathname)` (`None` for no match, otherwise the groups after
    the whole match, `None` for a group that took no part).
    `decodeURIComponent` is the function `decode`, `None` where it throws a
    `URIError`. */
module Params {
  import opened Wrappers
  import opened Strings
  import opened OrderedMaps

  datatype Key = Key(name: string, repeat: bool, delimiter: char)

  /** A parameter is one string, or the pieces of a repeated segment. */
  datatype Param = One(s: string) | Many(parts: seq<string>)

  datatype MatchResult =
    | NoMatch                           // `return false`
    | Matched(params: OrderedMap<Param>)
    | DecodeFailed                      // decodeURIComponent threw

  type Decode = string -> Option<string>

  /** `m[i + 1]`: the group of key `i`; a missing group reads as `undefined`. */
  function Group(groups: seq<Option<string>>, i: nat): Option<string> {
    if i < |groups| then groups[i] else None
  }

  /** `if (!param) continue;`: `undefined` and the empty string are skipped. */
  predicate Present(g: Option<string>) {
    g.Some? && g.value != ""
  }

  /** The value stored for key `k` once its group has decoded to `decoded`. */
  function ParamValue(k: Key, decoded: string): Param {
    if k.repeat then Many(Split(decoded, k.delimiter)) else One(decoded)
  }

  /** The params object after the loop has handled the first `n` keys; `None` once a decode threw. */
  function AssembleFirst(keys: seq<Key>, groups: seq<Option<string>>, decode: Decode,
                         params: OrderedMap<Param>, n: nat): Option<OrderedMap<Param>>
    requires n <= |keys|
  {
    if n == 0 then Some(params)
    else
      var prev := AssembleFirst(keys, groups, decode, params, n - 1);
      var g := Group(groups, n - 1);
      if prev.None? || !Present(g) then prev
      else match decode(g.value)
        case None => None
        case Some(d) => Some(Put(prev.value, keys[n - 1].name, ParamValue(keys[n - 1], d)))
  }

  /** What `pathMatch(options)(template)(pathname, params)` returns. */
  function PathMatch(keys: seq<Key>, m: Option<seq<Option<string>>>, decode: Decode,
                     params: Option<OrderedMap<Param>>): MatchResult
  {
    if m.None? then NoMatch
    else
      var base := if params.Some? then params.value else Empty();
      match AssembleFirst(keys, m.value, decode, base, |keys|)
      case None => DecodeFailed
      case Some(p) => Matched(p)
  }

  /** The loop of `pathMatch`, writing each key into `params` in place. */
  method MatchPath(keys: seq<Key>, m: Option<seq<Option<string>>>, decode: Decode,
                   params: Option<OrderedMap<Param>>) returns (r: MatchResult)
    ensures r == PathMatch(keys, m, decode, params)
  {
    if m.None? {
      return NoMatch;
    }
    var out := if params.Some? then params.value else Empty();
    var i := 0;
    while i < |keys|
      invariant 0 <= i <= |keys|
      invariant AssembleFirst(keys, m.value, decode, if params.Some? then params.value else Empty(), i) == Some(out)
    {
      var key := keys[i];
      var param := Group(m.value, i);
      if Present(param) {
        var decoded := decode(param.value);
        if decoded.None? {
          FailureSticks(keys, m.value, decode, if params.Some? then params.value else Empty(), i + 1, |keys|);
          return DecodeFailed;
        }
        var before := out;
        out := Put(out, key.name, One(decoded.value));
        if key.repeat {
          PutPut(before, key.name, One(decoded.value), Many(Split(decoded.value, key.delimiter)));
          out := Put(out, key.name, Many(Split(decoded.value, key.delimiter)));
        }
      }
      i := i + 1;
    }
    r := Matched(out);
  }

  lemma {:induction false} FailureSticks(keys: seq<Key>, groups: seq<Option<string>>, decode: Decode,
                                         params: OrderedMap<Param>, n: nat, n': nat)
    requires n <= n' <= |keys|
    requires AssembleFirst(keys, groups, decode, params, n).None?
    ensures AssembleFirst(keys, groups, decode, params, n').None?
    decreases n' - n
  {
    if n < n' {
      FailureSticks(keys, groups, decode, params, n + 1, n');
    }
  }

  /** The call throws exactly when some present group fails to decode. */
  lemma {:induction false} DecodeFailsIff(keys: seq<Key>, groups: seq<Option<string>>, decode: Decode,
                                          params: OrderedMap<Param>, n: nat)
    requires n <= |keys|
    ensures AssembleFirst(keys, groups, decode, params, n).None? <==>
            exists i :: 0 <= i < n && Present(Group(groups, i)) && decode(Group(groups, i).value).None?
  {
    if n > 0 {
      DecodeFailsIff(keys, groups, decode, params, n - 1);
    }
  }

  /** The caller's keys keep their positions and a well-formed object stays well formed. */
  lemma {:induction false} AssembledKeepsKeys(keys: seq<Key>, groups: seq<Option<string>>, decode: Decode,
                                              params: OrderedMap<Param>, n: nat)
    requires n <= |keys|
    requires AssembleFirst(keys, groups, decode, params, n).Some?
    ensures var r := AssembleFirst(keys, groups, decode, params, n).value;
      |params.keys| <= |r.keys| && r.keys[..|params.keys|] == params.keys && (params.Valid() ==> r.Valid())
  {
    if n > 0 {
      AssembledKeepsKeys(keys, groups, decode, params, n - 1);
    }
  }

  /** A name that no present group wrote keeps the value the caller's object had. */
  lemma {:induction false} AssembledUntouched(keys: seq<Key>, groups: seq<Option<string>>, decode: Decode,
                                              params: OrderedMap<Param>, n: nat, name: string)
    requires n <= |keys|
    requires AssembleFirst(keys, groups, decode, params, n).Some?
    requires forall i :: 0 <= i < n && keys[i].name == name ==> !Present(Group(groups, i))
    ensures var r := AssembleFirst(keys, groups, decode, params, n).value;
      (name in r.values <==> name in params.values) && (name in params.values ==> r.values[name] == params.values[name])
  {
    if n > 0 {
      AssembledUntouched(keys, groups, decode, params, n - 1, name);
    }
  }

  /** A key's value is its last present group, decoded, and split on the
      key's delimiter when the key repeats. */
  lemma {:induction false} AssembledWritten(keys: seq<Key>, groups: seq<Option<string>>, decode: Decode,
                                            params: OrderedMap<Param>, n: nat, i: nat)
    requires i < n <= |keys|
    requires AssembleFirst(keys, groups, decode, params, n).Some?
    requires Present(Group(groups, i))
    requires forall j :: i < j < n && keys[j].name == keys[i].name ==> !Present(Group(groups, j))
    ensures decode(Group(groups, i).value).Some?
    ensures var r := AssembleFirst(keys, groups, decode, params, n).value;
      keys[i].name in r.values && r.values[keys[i].name] == ParamValue(keys[i], decode(Group(groups, i).value).value)
  {
    if i < n - 1 {
      AssembledWritten(keys, groups, decode, params, n - 1, i);
    }
  }

  /** `pathMatch` returns `false` exactly when the regular expression does not match. */
  lemma NoMatchIff(keys: seq<Key>, m: Option<seq<Option<string>>>, decode: Decode, params: Option<OrderedMap<Param>>)
    ensures PathMatch(keys, m, decode, params) == NoMatch <==> m.None?
  {
  }

  /** A repeated segment's pieces join back, with its delimiter, into the decoded segment. */
  lemma RepeatedPiecesJoin(k: Key, decoded: string)
    requires k.repeat
    ensures Join(ParamValue(k, decoded).parts, k.delimiter) == decoded
    ensures forall p :: p in ParamValue(k, decoded).parts ==> k.delimiter !in p
  {
    SplitJoin(decoded, k.delimiter);
  }
}
