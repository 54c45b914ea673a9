/**
 * The HTTP client of the library (snyk/client.py): base-URL normalisation,
 * the shaping of GET query parameters, the REST version parameter of
 * POST/PUT/DELETE, and the cursor walk over REST pages.
 *
 * The network is a Transport: a fixed function from request to reply plus
 * the log of the requests sent so far, in the manner of a request mock
 * that records its call history.
 */
module Client {
  import opened Errors
  import opened Text
  import opened Json

  const DefaultApiUrl: string := "https://api.snyk.io/v1"
  const DefaultRestApiUrl: string := "https://api.snyk.io/rest"

  datatype Verb = GET | POST | PUT | DELETE

  /** A value stored in a params dict; PNone is Python's None (which `requests` drops). */
  datatype ParamValue = PNone | PBool(b: bool) | PInt(i: int) | PStr(s: string)

  datatype Param = Param(name: string, value: ParamValue)

  /**
   * One HTTP call as the client hands it to `requests`. `query` is the
   * params dict (empty when none is passed) and `body` the JSON body, which
   * is only passed when it is truthy.
   */
  datatype Request = Request(verb: Verb, url: string, query: seq<Param>, body: Option<Json>)

  datatype Reply = Reply(status: int, body: Json)

  /** What a sequence of calls produced, together with the requests it sent, in order. */
  datatype Exchange<T> = Exchange(outcome: Result<T>, sent: seq<Request>)

  /**
   * The settings of a client that shape its requests. `cleanupPath` is the
   * library's `utils.cleanup_path`, which is not part of this model.
   */
  datatype Config = Config(
    apiUrl: string,
    restApiUrl: string,
    version: Option<string>,
    cleanupPath: string -> string)

  /** Python truthiness of an optional string argument. */
  predicate Given(s: Option<string>) {
    s.Some? && s.value != ""
  }

  /** The given string when it is non-empty, the default otherwise. */
  function OrDefault(given: Option<string>, default: string): string {
    if Given(given) then given.value else default
  }

  /** Python's `s.rstrip("/")`. */
  function StripTrailingSlashes(s: string): (r: string)
    ensures r == [] || r[|r| - 1] != '/'
    ensures |r| <= |s| && s[..|r|] == r
    ensures forall i :: |r| <= i < |s| ==> s[i] == '/'
  {
    if s == [] || s[|s| - 1] != '/' then s
    else
      var r := StripTrailingSlashes(s[..|s| - 1]);
      assert s[..|s| - 1][..|r|] == s[..|r|];
      r
  }

  /**
   * The base URL a client keeps for a constructor argument: the default when
   * none (or an empty one) is given, and every trailing "/" removed.
   */
  function BaseUrl(given: Option<string>, default: string): (r: string)
    requires default != [] && default[|default| - 1] != '/'
    ensures !Given(given) ==> r == default
    ensures Given(given) && given.value[|given.value| - 1] != '/' ==> r == given.value
    ensures r == [] || r[|r| - 1] != '/'
    ensures Given(given) ==> |r| <= |given.value| && given.value == r + given.value[|r|..]
    ensures Given(given) ==> forall i :: |r| <= i < |given.value| ==> given.value[i] == '/'
  {
    var chosen := OrDefault(given, default);
    var r := StripTrailingSlashes(chosen);
    assert chosen == chosen[..|r|] + chosen[|r|..];
    r
  }

  /** What a REST `get` stores under "version": the version passed when non-empty, else the client's own, else None. */
  function VersionValue(c: Config, version: Option<string>): ParamValue {
    if Given(version) then PStr(version.value)
    else if c.version.Some? then PStr(c.version.value)
    else PNone
  }

  /** `name in params`. */
  predicate HasParam(params: seq<Param>, name: string) {
    exists i :: 0 <= i < |params| && params[i].name == name
  }

  /** `str(v).lower()` for a bool; anything else is left alone. */
  function Lowered(v: ParamValue): ParamValue {
    if v.PBool? then PStr(if v.b then "true" else "false") else v
  }

  /** The booleans of a params dict rewritten to "true"/"false", in place. */
  function LowerBools(params: seq<Param>): (r: seq<Param>)
    ensures |r| == |params|
    ensures forall i :: 0 <= i < |r| ==> r[i] == Param(params[i].name, Lowered(params[i].value))
  {
    seq(|params|, i requires 0 <= i < |params| => Param(params[i].name, Lowered(params[i].value)))
  }

  /** True when a REST `get` inserts the version: neither the params nor the path carry one. */
  predicate AddsVersion(path: string, params: seq<Param>) {
    !HasParam(params, "version") && !Contains(path, "version")
  }

  /** The params dict after a REST `get` (of the cleaned `path`) has shaped it. */
  function RestParams(c: Config, path: string, params: seq<Param>, version: Option<string>): seq<Param> {
    var withVersion :=
      if AddsVersion(path, params) then params + [Param("version", VersionValue(c, version))]
      else params;
    LowerBools(withVersion)
  }

  /** A `get` is a REST call when asked to be, or when a version is passed. */
  predicate IsRest(version: Option<string>, rest: bool) {
    rest || Given(version)
  }

  /** The request `get(path, params, version, rest)` sends. */
  function GetRequest(c: Config, path: string, params: seq<Param>, version: Option<string>, rest: bool): Request {
    var p := c.cleanupPath(path);
    if IsRest(version, rest) then
      if Contains(p, "snyk.io") then Request(GET, p, [], None)
      else Request(GET, c.restApiUrl + "/" + p, RestParams(c, p, params, version), None)
    else Request(GET, c.apiUrl + "/" + p, params, None)
  }

  /**
   * The caller's params dict after `get`: a REST call shapes it in place,
   * except that an empty dict is replaced by a fresh one and stays empty.
   */
  function ParamsAfterGet(c: Config, path: string, params: seq<Param>, version: Option<string>, rest: bool): seq<Param> {
    if params == [] || !IsRest(version, rest) then params
    else RestParams(c, c.cleanupPath(path), params, version)
  }

  /** The params of a REST post/put/delete: {"version": v} only when the client has a version. */
  function VersionQuery(c: Config, rest: bool): seq<Param> {
    if rest && Given(c.version) then [Param("version", PStr(c.version.value))] else []
  }

  /** The body `requests` is given: a falsy JSON body is not passed. */
  function JsonArg(body: Option<Json>): Option<Json> {
    if body.Some? && Truthy(body.value) then body else None
  }

  /** The request `post`, `put` or `delete` sends for `path`. */
  function BodyRequest(c: Config, verb: Verb, path: string, body: Option<Json>, rest: bool): Request {
    var base := if rest then c.restApiUrl else c.apiUrl;
    Request(verb, base + "/" + c.cleanupPath(path), VersionQuery(c, rest), JsonArg(body))
  }

  /** A reply that is not ok (status 400 and above) raises SnykHTTPError; otherwise its JSON. */
  function Receive(reply: Reply): (r: Result<Json>)
    ensures r.Err? <==> reply.status >= 400
    ensures r.Err? ==> r.error == HttpError(reply.status)
    ensures r.Ok? ==> r.value == reply.body
  {
    if reply.status >= 400 then Err(HttpError(reply.status)) else Ok(reply.body)
  }

  /** The items under "data" of the first page of a walk; a missing key raises KeyError. */
  function FirstPageItems(page: Json): Result<seq<Json>> {
    var data :- PyIndex(page, "data");
    if data.Array? then Ok(data.items) else Err(TypeError)
  }

  /**
   * The loop test of the page walk and the link it follows: None ends the walk
   * (no truthy "next", or a "next" equal to "self"), Some is the URL to fetch.
   */
  function NextLink(page: Json): Result<Option<string>> {
    var links :- PyGet(page, "links", EmptyObject);
    var next :- PyGet(links, "next", Null);
    if !Truthy(next) then Ok(None)
    else if HasKey(links.members, "self") && PyEq(next, Lookup(links.members, "self").value) then Ok(None)
    else if next.Str? then Ok(Some(next.s))
    else Err(TypeError)
  }

  /** What a later page adds: None ends the walk (no "data", or an empty one). */
  function LaterPageItems(page: Json): Result<Option<seq<Json>>> {
    var hasData :- PyIn("data", page);
    if !hasData then Ok(None)
    else
      var data :- PyIndex(page, "data");
      var n :- PyLen(data);
      if n == 0 then Ok(None)
      else
        var items :- PyIterate(data);
        Ok(Some(items))
  }

  /** The items of the current page in front of what the rest of the walk returns. */
  function Prepend(items: seq<Json>, rest: Result<seq<Json>>): Result<seq<Json>> {
    if rest.Ok? then Ok(items + rest.value) else rest
  }

  /**
   * One turn of the page walk from `page`: either the walk finishes (with an
   * error, or adding nothing more), or the "next" page is fetched and its
   * items are appended.
   */
  datatype Turn =
    | Finish(outcome: Result<seq<Json>>, sent: seq<Request>)
    | Continue(req: Request, page: Json, items: seq<Json>)

  /** The turn the walk takes once the "next" page has been requested with `req`. */
  function Fetched(req: Request, reply: Result<Json>): (t: Turn)
    ensures t.Finish? ==> t.sent == [req]
    ensures t.Finish? && t.outcome.Ok? ==> t.outcome.value == []
    ensures t.Continue? ==> t.req == req && reply == Ok(t.page) && t.items != []
  {
    if reply.Err? then Finish(Err(reply.error), [req])
    else
      var more := LaterPageItems(reply.value);
      if more.Err? then Finish(Err(more.error), [req])
      else if more.value.None? then Finish(Ok([]), [req])
      else Continue(req, reply.value, more.value.value)
  }

  /** The turn the walk takes from `page`. */
  function NextTurn(c: Config, routes: Request -> Reply, page: Json): (t: Turn)
    ensures t.Finish? && t.outcome.Ok? ==> t.outcome.value == []
    ensures t.Finish? ==> |t.sent| <= 1
  {
    match NextLink(page)
    case Err(e) => Finish(Err(e), [])
    case Ok(link) =>
      if link.None? then Finish(Ok([]), [])
      else
        var req := GetRequest(c, link.value, [], None, true);
        Fetched(req, Receive(routes(req)))
  }

  /** The turns of the walk for a client with settings `c` talking to `routes`. */
  function Turns(c: Config, routes: Request -> Reply): Json -> Turn {
    page => NextTurn(c, routes, page)
  }

  /**
   * `turn` takes the turns of a client with settings `c` talking to `routes`.
   * The walk is stated over such a `turn` so that proofs about it need not
   * look inside a turn.
   */
  ghost predicate TurnsOf(turn: Json -> Turn, c: Config, routes: Request -> Reply) {
    forall p {:trigger NextTurn(c, routes, p)} :: turn(p) == NextTurn(c, routes, p)
  }

  /**
   * The rest of a page walk whose turns are given by `turn`, once `page` has
   * been appended, continuing to at most `fuel` further pages; None when the
   * link chain is longer than that.
   */
  function Follow(turn: Json -> Turn, page: Json, fuel: nat): Option<Exchange<seq<Json>>>
    decreases fuel
  {
    var t := turn(page);
    if t.Finish? then Some(Exchange(t.outcome, t.sent))
    else if fuel == 0 then None
    else
      var w := Follow(turn, t.page, fuel - 1);
      if w.None? then None
      else Some(Exchange(Prepend(t.items, w.value.outcome), [t.req] + w.value.sent))
  }

  /** The whole `get_rest_pages(path, params)` walk with at most `fuel` fetches after the first. */
  function RestPages(c: Config, routes: Request -> Reply, turn: Json -> Turn, path: string, params: seq<Param>, fuel: nat)
    : Option<Exchange<seq<Json>>>
  {
    var req := GetRequest(c, path, params, None, true);
    var reply := Receive(routes(req));
    if reply.Err? then Some(Exchange(Err(reply.error), [req]))
    else
      var first := FirstPageItems(reply.value);
      if first.Err? then Some(Exchange(Err(first.error), [req]))
      else
        var w := Follow(turn, reply.value, fuel);
        if w.None? then None
        else Some(Exchange(Prepend(first.value, w.value.outcome), [req] + w.value.sent))
  }

  /** Appending two pages' items one after the other is appending their concatenation. */
  lemma PrependTwice(a: seq<Json>, b: seq<Json>, rest: Result<seq<Json>>)
    ensures Prepend(a, Prepend(b, rest)) == Prepend(a + b, rest)
  {
    if rest.Ok? {
      assert a + (b + rest.value) == (a + b) + rest.value;
    }
  }

  /** The network: a deterministic reply for every request, and the log of what was sent. */
  class Transport {
    const routes: Request -> Reply
    var log: seq<Request>

    constructor (routes: Request -> Reply)
      ensures this.routes == routes && log == []
    {
      this.routes := routes;
      log := [];
    }

    method Send(req: Request) returns (reply: Reply)
      modifies this
      ensures log == old(log) + [req]
      ensures reply == routes(req)
    {
      reply := routes(req);
      log := log + [req];
    }
  }

  /** A params dict a caller hands to `get`, which may rewrite it in place. */
  class ParamDict {
    var entries: seq<Param>

    constructor (entries: seq<Param>)
      ensures this.entries == entries
    {
      this.entries := entries;
    }
  }

  /** The loop of `get` that rewrites every boolean value of a params dict to "true"/"false". */
  method LowerBoolsInPlace(q: ParamDict)
    modifies q
    ensures q.entries == LowerBools(old(q.entries))
  {
    ghost var before := q.entries;
    var i := 0;
    while i < |q.entries|
      invariant 0 <= i <= |q.entries| == |before|
      invariant forall j :: 0 <= j < i ==> q.entries[j] == Param(before[j].name, Lowered(before[j].value))
      invariant forall j :: i <= j < |before| ==> q.entries[j] == before[j]
    {
      var v := q.entries[i].value;
      if v.PBool? {
        q.entries := q.entries[i := Param(q.entries[i].name, PStr(if v.b then "true" else "false"))];
      }
      i := i + 1;
    }
  }

  function EntriesOf(p: ParamDict?): seq<Param>
    reads p
  {
    if p == null then [] else p.entries
  }

  class SnykClient {
    const apiUrl: string
    const restApiUrl: string
    const version: Option<string>
    const cleanupPath: string -> string

    /** `SnykClient(token, url, rest_api_url, ..., version)`, with `utils.cleanup_path` supplied. */
    constructor (url: Option<string>, restApiUrl: Option<string>, version: Option<string>, cleanupPath: string -> string)
      ensures this.apiUrl == BaseUrl(url, DefaultApiUrl)
      ensures this.restApiUrl == BaseUrl(restApiUrl, DefaultRestApiUrl)
      ensures this.version == version && this.cleanupPath == cleanupPath
    {
      var api := OrDefault(url, DefaultApiUrl);
      var restUrl := OrDefault(restApiUrl, DefaultRestApiUrl);
      // a URL ending in '/' loses all its trailing slashes
      if api[|api| - 1] == '/' {
        api := StripTrailingSlashes(api);
      }
      if restUrl[|restUrl| - 1] == '/' {
        restUrl := StripTrailingSlashes(restUrl);
      }
      this.apiUrl := api;
      this.restApiUrl := restUrl;
      this.version := version;
      this.cleanupPath := cleanupPath;
    }

    function Settings(): Config {
      Config(apiUrl, restApiUrl, version, cleanupPath)
    }

    /** `get(path, params, version, rest)`: one GET; the caller's non-empty params are shaped in place. */
    method Get(tr: Transport, path: string, params: ParamDict?, version: Option<string>, rest: bool)
      returns (r: Result<Json>)
      modifies tr, params
      ensures tr.log == old(tr.log) + [GetRequest(Settings(), path, old(EntriesOf(params)), version, rest)]
      ensures r == Receive(tr.routes(GetRequest(Settings(), path, old(EntriesOf(params)), version, rest)))
      ensures params != null ==> params.entries == ParamsAfterGet(Settings(), path, old(params.entries), version, rest)
    {
      var isRest := rest || Given(version);
      var p := cleanupPath(path);
      var q := params;
      if q == null || q.entries == [] {
        q := new ParamDict([]);
      }
      var req: Request;
      if isRest {
        // the version is added only when neither the params nor the path name one
        if !HasParam(q.entries, "version") && !Contains(p, "version") {
          q.entries := q.entries + [Param("version", VersionValue(Settings(), version))];
        }
        LowerBoolsInPlace(q);
        if Contains(p, "snyk.io") {
          req := Request(GET, p, [], None);
        } else {
          req := Request(GET, restApiUrl + "/" + p, q.entries, None);
        }
      } else {
        req := Request(GET, apiUrl + "/" + p, q.entries, None);
      }
      var reply := tr.Send(req);
      r := Receive(reply);
    }

    /** `post(path, body, rest)`. */
    method Post(tr: Transport, path: string, body: Json, rest: bool) returns (r: Result<Json>)
      modifies tr
      ensures tr.log == old(tr.log) + [BodyRequest(Settings(), POST, path, Some(body), rest)]
      ensures r == Receive(tr.routes(BodyRequest(Settings(), POST, path, Some(body), rest)))
    {
      var base := if rest then restApiUrl else apiUrl;
      var query := if rest && Given(version) then [Param("version", PStr(version.value))] else [];
      var reply := tr.Send(Request(POST, base + "/" + cleanupPath(path), query, JsonArg(Some(body))));
      r := Receive(reply);
    }

    /** `put(path, body, rest)`. */
    method Put(tr: Transport, path: string, body: Json, rest: bool) returns (r: Result<Json>)
      modifies tr
      ensures tr.log == old(tr.log) + [BodyRequest(Settings(), PUT, path, Some(body), rest)]
      ensures r == Receive(tr.routes(BodyRequest(Settings(), PUT, path, Some(body), rest)))
    {
      var base := if rest then restApiUrl else apiUrl;
      var query := if rest && Given(version) then [Param("version", PStr(version.value))] else [];
      var reply := tr.Send(Request(PUT, base + "/" + cleanupPath(path), query, JsonArg(Some(body))));
      r := Receive(reply);
    }

    /** `delete(path, rest)`. */
    method Delete(tr: Transport, path: string, rest: bool) returns (r: Result<Json>)
      modifies tr
      ensures tr.log == old(tr.log) + [BodyRequest(Settings(), DELETE, path, None, rest)]
      ensures r == Receive(tr.routes(BodyRequest(Settings(), DELETE, path, None, rest)))
    {
      var base := if rest then restApiUrl else apiUrl;
      var query := if rest && Given(version) then [Param("version", PStr(version.value))] else [];
      var reply := tr.Send(Request(DELETE, base + "/" + cleanupPath(path), query, None));
      r := Receive(reply);
    }

    /** One turn of the loop of `get_rest_pages` from the page just fetched. */
    method TakeTurn(tr: Transport, pageData: Json, ghost turn: Json -> Turn) returns (t: Turn)
      requires TurnsOf(turn, Settings(), tr.routes)
      modifies tr
      ensures t == turn(pageData)
      ensures t.Finish? && t.outcome.Ok? ==> t.outcome.value == []
      ensures tr.log == old(tr.log) + (if t.Finish? then t.sent else [t.req])
    {
      assert turn(pageData) == NextTurn(Settings(), tr.routes, pageData);
      var link := NextLink(pageData);
      if link.Err? {
        return Finish(Err(link.error), []);
      }
      if link.value.None? {
        return Finish(Ok([]), []);
      }
      // the link is an absolute URL: it is fetched as it is, with no params
      var req := GetRequest(Settings(), link.value.value, [], None, true);
      var nextPage := Get(tr, link.value.value, null, None, true);
      if nextPage.Err? {
        return Finish(Err(nextPage.error), [req]);
      }
      var more := LaterPageItems(nextPage.value);
      if more.Err? {
        return Finish(Err(more.error), [req]);
      }
      if more.value.None? {
        return Finish(Ok([]), [req]);
      }
      return Continue(req, nextPage.value, more.value.value);
    }

    /**
     * `get_rest_pages(path, params)`: the first page's "data" followed by each
     * later page's "data", following "links.next" until it is missing, empty or
     * the page's own "self" link, or a page brings no data.
     */
    method GetRestPages(tr: Transport, path: string, params: ParamDict?, ghost turn: Json -> Turn, ghost fuel: nat)
      returns (r: Result<seq<Json>>)
      requires TurnsOf(turn, Settings(), tr.routes)
      requires RestPages(Settings(), tr.routes, turn, path, EntriesOf(params), fuel).Some?
      modifies tr, params
      ensures r == RestPages(Settings(), tr.routes, turn, path, old(EntriesOf(params)), fuel).value.outcome
      ensures tr.log == old(tr.log) + RestPages(Settings(), tr.routes, turn, path, old(EntriesOf(params)), fuel).value.sent
      ensures params != null ==> params.entries == ParamsAfterGet(Settings(), path, old(params.entries), None, true)
    {
      var firstPage := Get(tr, path, params, None, true);
      if firstPage.Err? {
        return Err(firstPage.error);
      }
      var pageData := firstPage.value;
      var first := FirstPageItems(pageData);
      if first.Err? {
        return Err(first.error);
      }
      r := FollowLinks(tr, pageData, first.value, turn, fuel);
    }

    /**
     * The loop of `get_rest_pages`: from `pageData`, whose items are already in
     * `returnData`, follow the "next" links and collect what later pages add.
     */
    method FollowLinks(tr: Transport, pageData: Json, returnData: seq<Json>, ghost turn: Json -> Turn, ghost fuel: nat)
      returns (r: Result<seq<Json>>)
      requires TurnsOf(turn, Settings(), tr.routes)
      requires Follow(turn, pageData, fuel).Some?
      modifies tr
      ensures r == Prepend(returnData, Follow(turn, pageData, fuel).value.outcome)
      ensures tr.log == old(tr.log) + Follow(turn, pageData, fuel).value.sent
    {
      ghost var total := Follow(turn, pageData, fuel).value;
      ghost var start := returnData;
      ghost var log0 := tr.log;
      var pageData := pageData;
      var returnData := returnData;
      ghost var f := fuel;
      while true
        invariant Follow(turn, pageData, f).Some?
        invariant Prepend(start, total.outcome) == Prepend(returnData, Follow(turn, pageData, f).value.outcome)
        invariant tr.log + Follow(turn, pageData, f).value.sent == log0 + total.sent
        modifies tr
        decreases f
      {
        var t := TakeTurn(tr, pageData, turn);
        if t.Finish? {
          if t.outcome.Err? {
            return Err(t.outcome.error);
          }
          assert returnData + [] == returnData;
          break;
        }
        ghost var rest := Follow(turn, t.page, f - 1).value;
        PrependTwice(returnData, t.items, rest.outcome);
        pageData := t.page;
        returnData := returnData + t.items;
        f := f - 1;
      }
      return Ok(returnData);
    }
  }
}
