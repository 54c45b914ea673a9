/**
 * Properties of the client model: the order and extent of the REST page
 * walk, when it stops, and how a GET is shaped.
 */
module ClientProperties {
  import opened Errors
  import opened Text
  import opened Json
  import opened Client

  // ---------------------------------------------------------------------
  // The page walk

  /** The items of several pages, one page after the other. */
  function Flatten(pages: seq<seq<Json>>): (r: seq<Json>)
    ensures pages == [] ==> r == []
  {
    if pages == [] then [] else pages[0] + Flatten(pages[1..])
  }

  /**
   * `pages[0]` links to `pages[1]`, ..., each later page adding `items[i]`
   * after being fetched with `reqs[i]`, and the walk stops at the last page
   * with outcome `o` after sending `last`.
   */
  ghost predicate Chain(turn: Json -> Turn, pages: seq<Json>, reqs: seq<Request>, items: seq<seq<Json>>, o: Result<seq<Json>>, last: seq<Request>) {
    |pages| == |reqs| + 1 && |items| == |reqs| &&
    (forall i :: 0 <= i < |reqs| ==> turn(pages[i]) == Continue(reqs[i], pages[i + 1], items[i])) &&
    turn(pages[|reqs|]) == Finish(o, last)
  }

  /**
   * Along a chain of pages the walk returns every later page's items in fetch
   * order ahead of what the last turn gives, and sends exactly one request per
   * page, plus what the last turn sent.
   */
  lemma {:induction false} ChainWalk(turn: Json -> Turn, pages: seq<Json>, reqs: seq<Request>, items: seq<seq<Json>>, o: Result<seq<Json>>, last: seq<Request>)
    requires Chain(turn, pages, reqs, items, o, last)
    ensures Follow(turn, pages[0], |reqs|) == Some(Exchange(Prepend(Flatten(items), o), reqs + last))
  {
    if reqs == [] {
      assert items == [] && reqs + last == last;
      assert Prepend([], o) == o by {
        if o.Ok? {
          assert [] + o.value == o.value;
        }
      }
    } else {
      assert turn(pages[0]) == Continue(reqs[0], pages[1], items[0]);
      assert Chain(turn, pages[1..], reqs[1..], items[1..], o, last) by {
        forall i | 0 <= i < |reqs[1..]|
          ensures turn(pages[1..][i]) == Continue(reqs[1..][i], pages[1..][i + 1], items[1..][i])
        {
          assert turn(pages[i + 1]) == Continue(reqs[i + 1], pages[i + 2], items[i + 1]);
        }
      }
      ChainWalk(turn, pages[1..], reqs[1..], items[1..], o, last);
      assert pages[1..][0] == pages[1] && |reqs[1..]| == |reqs| - 1;
      assert Flatten(items) == items[0] + Flatten(items[1..]);
      PrependTwice(items[0], Flatten(items[1..]), o);
      assert reqs + last == [reqs[0]] + (reqs[1..] + last);
    }
  }

  /**
   * An error on the last page of a chain is what `get_rest_pages` raises: the
   * first page's data and every page's data collected before it are lost, and
   * every request up to the failing one was sent.
   */
  lemma FollowErrorDiscards(c: Config, routes: Request -> Reply, turn: Json -> Turn, path: string, params: seq<Param>,
                            pages: seq<Json>, reqs: seq<Request>, items: seq<seq<Json>>, e: Error, last: seq<Request>)
    requires Chain(turn, pages, reqs, items, Err(e), last)
    requires Receive(routes(GetRequest(c, path, params, None, true))) == Ok(pages[0])
    requires FirstPageItems(pages[0]).Ok?
    ensures RestPages(c, routes, turn, path, params, |reqs|)
         == Some(Exchange(Err(e), [GetRequest(c, path, params, None, true)] + (reqs + last)))
  {
    ChainWalk(turn, pages, reqs, items, Err(e), last);
  }

  /** More fuel than a walk needs changes nothing: the result does not depend on the bound. */
  lemma {:induction false} FollowFuel(turn: Json -> Turn, page: Json, fuel: nat, more: nat)
    requires Follow(turn, page, fuel).Some? && fuel <= more
    ensures Follow(turn, page, more) == Follow(turn, page, fuel)
    decreases fuel
  {
    var t := turn(page);
    if t.Continue? {
      FollowFuel(turn, t.page, fuel - 1, more - 1);
    }
  }

  /** No extra fetch: a walk with fuel `fuel` sends at most `fuel + 1` requests after the first page. */
  lemma {:induction false} FollowSendsLittle(c: Config, routes: Request -> Reply, turn: Json -> Turn, page: Json, fuel: nat)
    requires TurnsOf(turn, c, routes)
    requires Follow(turn, page, fuel).Some?
    ensures |Follow(turn, page, fuel).value.sent| <= fuel + 1
    decreases fuel
  {
    var t := turn(page);
    assert t == NextTurn(c, routes, page);
    if t.Continue? {
      FollowSendsLittle(c, routes, turn, t.page, fuel - 1);
    }
  }

  /** The "next" link of a page, when it has one. */
  function NextOf(page: Json): Option<Json> {
    if page.Object? && HasKey(page.members, "links") then
      var links := Lookup(page.members, "links").value;
      if links.Object? then Lookup(links.members, "next") else None
    else None
  }

  /** A page without a truthy "next" link ends the walk, and nothing more is fetched. */
  lemma NoNextStops(c: Config, routes: Request -> Reply, page: Json)
    requires page.Object?
    requires !HasKey(page.members, "links") || Lookup(page.members, "links").value.Object?
    requires NextOf(page).None? || !Truthy(NextOf(page).value)
    ensures NextTurn(c, routes, page) == Finish(Ok([]), [])
  {
  }

  /** A page whose "next" link equals its own "self" link ends the walk without a fetch. */
  lemma SelfLinkStops(c: Config, routes: Request -> Reply, page: Json, self: Json)
    requires page.Object? && HasKey(page.members, "links")
    requires Lookup(page.members, "links").value.Object?
    requires Lookup(Lookup(page.members, "links").value.members, "self") == Some(self)
    requires NextOf(page).Some? && PyEq(NextOf(page).value, self)
    ensures NextTurn(c, routes, page) == Finish(Ok([]), [])
  {
  }

  /**
   * A later page that lacks "data", or whose "data" is an empty list, ends the
   * walk: it was fetched once and contributes no items.
   */
  lemma EmptyLaterPageEnds(c: Config, routes: Request -> Reply, page: Json, url: string)
    requires NextLink(page) == Ok(Some(url))
    requires Receive(routes(GetRequest(c, url, [], None, true))).Ok?
    requires
      var later := Receive(routes(GetRequest(c, url, [], None, true))).value;
      later.Object? && (!HasKey(later.members, "data") || Lookup(later.members, "data") == Some(Array([])))
    ensures NextTurn(c, routes, page) == Finish(Ok([]), [GetRequest(c, url, [], None, true)])
  {
  }

  /** A first page without "data" raises KeyError("data"), after the one request. */
  lemma FirstPageWithoutData(c: Config, routes: Request -> Reply, turn: Json -> Turn, path: string, params: seq<Param>, fuel: nat)
    requires
      var first := Receive(routes(GetRequest(c, path, params, None, true)));
      first.Ok? && first.value.Object? && !HasKey(first.value.members, "data")
    ensures RestPages(c, routes, turn, path, params, fuel)
         == Some(Exchange(Err(KeyError("data")), [GetRequest(c, path, params, None, true)]))
  {
  }

  /** The walk continues from a page with a fresh "next" link exactly when that page brings data. */
  lemma ContinuesIffData(c: Config, routes: Request -> Reply, page: Json, url: string)
    requires NextLink(page) == Ok(Some(url))
    ensures NextTurn(c, routes, page).Continue? <==>
      var later := Receive(routes(GetRequest(c, url, [], None, true)));
      later.Ok? && LaterPageItems(later.value).Ok? && LaterPageItems(later.value).value.Some?
  {
  }

  // ---------------------------------------------------------------------
  // Three linked pages of ten items

  const SnykHost: string := "https://api.snyk.io/"
  const Page2Url: string := SnykHost + "rest/next"
  const Page3Url: string := SnykHost + "rest/last/3"

  function TenItems(k: int): (r: seq<Json>)
    ensures |r| == 10
  {
    seq(10, i => Object([Entry("id", Int(10 * k + i))]))
  }

  function Page(k: int, next: Option<string>): Json {
    var links := if next.Some? then [Entry("next", Str(next.value))] else [];
    Object([Entry("data", Array(TenItems(k))), Entry("links", Object(links))])
  }

  /** What the walk reads from one of these pages. */
  lemma PageParts(k: int, next: Option<string>)
    requires next.None? || next.value != ""
    ensures FirstPageItems(Page(k, next)) == Ok(TenItems(k))
    ensures LaterPageItems(Page(k, next)) == Ok(Some(TenItems(k)))
    ensures NextLink(Page(k, next)) == if next.Some? then Ok(Some(next.value)) else Ok(None)
  {
    var links := if next.Some? then [Entry("next", Str(next.value))] else [];
    var ms := [Entry("data", Array(TenItems(k))), Entry("links", Object(links))];
    assert Page(k, next) == Object(ms);
    assert Lookup(ms, "data") == Some(Array(TenItems(k)));
    assert Keys(ms) == ["data", "links"];
    assert Lookup(ms[1..], "links") == Some(Object(links));
    assert Lookup(ms, "links") == Some(Object(links));
    if next.Some? {
      assert Lookup(links, "next") == Some(Str(next.value));
      assert Keys(links) == ["next"];
      assert !HasKey(links, "self");
    }
  }

  /** A server answering the first request with page 1, and the two links with pages 2 and 3. */
  function ThreePages(req: Request): Reply {
    if req.url == Page2Url then Reply(200, Page(2, Some(Page3Url)))
    else if req.url == Page3Url then Reply(200, Page(3, None))
    else Reply(200, Page(1, Some(Page2Url)))
  }

  const Plain: Config := Config(DefaultApiUrl, DefaultRestApiUrl, Some("2023-01-01"), p => p)

  lemma ContainsSnyk(url: string, rest: string)
    requires url == SnykHost + rest
    ensures Contains(url, "snyk.io")
  {
    var u := url[12..];
    assert u[..7] == "snyk.io";
    assert StartsWith(u, "snyk.io");
    var k := 12;
    while k > 0
      invariant 0 <= k <= 12
      invariant Contains(url[k..], "snyk.io")
    {
      assert url[k - 1..][1..] == url[k..];
      k := k - 1;
    }
  }

  /** An absolute "next" link is requested verbatim, without params. */
  lemma LinkRequest(url: string, rest: string)
    requires url == SnykHost + rest
    ensures GetRequest(Plain, url, [], None, true) == Request(GET, url, [], None)
  {
    ContainsSnyk(url, rest);
  }

  /** From a page linking to an absolute URL, the walk fetches it and appends what it brings. */
  lemma LinkedTurn(turn: Json -> Turn, routes: Request -> Reply, k: int, url: string, rest: string, later: Json, items: seq<Json>)
    requires TurnsOf(turn, Plain, routes)
    requires url == SnykHost + rest
    requires routes(Request(GET, url, [], None)) == Reply(200, later)
    requires LaterPageItems(later) == Ok(Some(items))
    ensures turn(Page(k, Some(url))) == Continue(Request(GET, url, [], None), later, items)
  {
    LinkRequest(url, rest);
    PageParts(k, Some(url));
    assert turn(Page(k, Some(url))) == NextTurn(Plain, routes, Page(k, Some(url)));
  }

  /** A page without a "next" link is the last one. */
  lemma LastTurn(turn: Json -> Turn, routes: Request -> Reply, k: int)
    requires TurnsOf(turn, Plain, routes)
    ensures turn(Page(k, None)) == Finish(Ok([]), [])
  {
    PageParts(k, None);
    assert turn(Page(k, None)) == NextTurn(Plain, routes, Page(k, None));
  }

  /** The three pages are served at the first request and at the two links. */
  lemma ThreePagesServed()
    ensures ThreePages(Request(GET, Page2Url, [], None)) == Reply(200, Page(2, Some(Page3Url)))
    ensures ThreePages(Request(GET, Page3Url, [], None)) == Reply(200, Page(3, None))
  {
    assert |Page2Url| != |Page3Url|;
  }

  /** The turns the walk takes over the three pages. */
  lemma ThreeTurns(turn: Json -> Turn)
    requires TurnsOf(turn, Plain, ThreePages)
    ensures turn(Page(1, Some(Page2Url))) == Continue(Request(GET, Page2Url, [], None), Page(2, Some(Page3Url)), TenItems(2))
    ensures turn(Page(2, Some(Page3Url))) == Continue(Request(GET, Page3Url, [], None), Page(3, None), TenItems(3))
    ensures turn(Page(3, None)) == Finish(Ok([]), [])
  {
    ThreePagesServed();
    PageParts(2, Some(Page3Url));
    PageParts(3, None);
    LinkedTurn(turn, ThreePages, 1, Page2Url, "rest/next", Page(2, Some(Page3Url)), TenItems(2));
    LinkedTurn(turn, ThreePages, 2, Page3Url, "rest/last/3", Page(3, None), TenItems(3));
    LastTurn(turn, ThreePages, 3);
  }

  /** From the first of the three pages, the walk adds the second and third pages' items with two requests. */
  lemma ThreePagesFollow(turn: Json -> Turn)
    requires TurnsOf(turn, Plain, ThreePages)
    ensures Follow(turn, Page(1, Some(Page2Url)), 2)
         == Some(Exchange(Ok(TenItems(2) + TenItems(3)), [Request(GET, Page2Url, [], None), Request(GET, Page3Url, [], None)]))
  {
    var r2 := Request(GET, Page2Url, [], None);
    var r3 := Request(GET, Page3Url, [], None);
    var p1, p2, p3 := Page(1, Some(Page2Url)), Page(2, Some(Page3Url)), Page(3, None);
    ThreeTurns(turn);
    assert Chain(turn, [p1, p2, p3], [r2, r3], [TenItems(2), TenItems(3)], Ok([]), []);
    ChainWalk(turn, [p1, p2, p3], [r2, r3], [TenItems(2), TenItems(3)], Ok([]), []);
    var both := TenItems(2) + TenItems(3);
    assert Flatten([TenItems(2), TenItems(3)]) == both by {
      assert Flatten([TenItems(3)]) == TenItems(3) + [];
    }
    assert Prepend(both, Ok([])) == Ok(both) by {
      assert both + [] == both;
    }
    assert [p1, p2, p3][0] == p1 && |[r2, r3]| == 2 && [r2, r3] + [] == [r2, r3];
  }

  /** Three linked pages of ten items each yield thirty items, in page order, in three requests. */
  lemma ThreePagesOfTen(turn: Json -> Turn)
    requires TurnsOf(turn, Plain, ThreePages)
    ensures
      var w := RestPages(Plain, ThreePages, turn, "orgs/o/targets", [Param("limit", PInt(10))], 2);
      w.Some? && w.value.outcome == Ok(TenItems(1) + TenItems(2) + TenItems(3)) && |w.value.sent| == 3
  {
    var p1 := Page(1, Some(Page2Url));
    ThreePagesFollow(turn);
    var first := GetRequest(Plain, "orgs/o/targets", [Param("limit", PInt(10))], None, true);
    assert first.url != Page2Url && first.url != Page3Url;
    assert ThreePages(first) == Reply(200, p1);
    PageParts(1, Some(Page2Url));
    assert TenItems(1) + (TenItems(2) + TenItems(3)) == TenItems(1) + TenItems(2) + TenItems(3);
  }

  // ---------------------------------------------------------------------
  // Shaping a GET

  /**
   * A REST `get` adds "version" exactly when neither the params nor the path
   * carry it, as the last param; every param before it keeps its name.
   */
  lemma VersionInsertedOnlyWhenAbsent(c: Config, path: string, params: seq<Param>, version: Option<string>)
    ensures AddsVersion(path, params) ==>
      |RestParams(c, path, params, version)| == |params| + 1 &&
      RestParams(c, path, params, version)[|params|] == Param("version", VersionValue(c, version))
    ensures !AddsVersion(path, params) ==> |RestParams(c, path, params, version)| == |params|
    ensures forall i :: 0 <= i < |params| ==> RestParams(c, path, params, version)[i].name == params[i].name
  {
  }

  /** A REST `get` leaves no boolean param: each becomes "true" or "false", and nothing else changes. */
  lemma BooleansLowered(c: Config, path: string, params: seq<Param>, version: Option<string>)
    ensures forall i :: 0 <= i < |RestParams(c, path, params, version)| ==> !RestParams(c, path, params, version)[i].value.PBool?
    ensures forall i :: 0 <= i < |params| && params[i].value.PBool? ==>
      RestParams(c, path, params, version)[i].value == PStr(if params[i].value.b then "true" else "false")
    ensures forall i :: 0 <= i < |params| && !params[i].value.PBool? ==>
      RestParams(c, path, params, version)[i].value == params[i].value
  {
  }

  /**
   * The URL a `get` requests: a REST path containing "snyk.io" verbatim and
   * without params; any other REST path under the REST base URL; a v1 path
   * under the v1 base URL with the params as given.
   */
  lemma GetUrlChoice(c: Config, path: string, params: seq<Param>, version: Option<string>, rest: bool)
    ensures
      var req := GetRequest(c, path, params, version, rest);
      var p := c.cleanupPath(path);
      req.verb == GET && req.body == None &&
      ((rest || Given(version)) && Contains(p, "snyk.io") ==> req.url == p && req.query == []) &&
      ((rest || Given(version)) && !Contains(p, "snyk.io") ==>
        req.url == c.restApiUrl + "/" + p && req.query == RestParams(c, p, params, version)) &&
      (!rest && !Given(version) ==> req.url == c.apiUrl + "/" + p && req.query == params)
  {
  }

  /**
   * The caller's params dict is changed only by a REST `get`, and never when
   * it is empty; when changed, it ends up as the query that was sent (unless
   * the URL was used verbatim).
   */
  lemma CallerParams(c: Config, path: string, params: seq<Param>, version: Option<string>, rest: bool)
    ensures params == [] || (!rest && !Given(version)) ==> ParamsAfterGet(c, path, params, version, rest) == params
    ensures params != [] && (rest || Given(version)) && !Contains(c.cleanupPath(path), "snyk.io") ==>
      ParamsAfterGet(c, path, params, version, rest) == GetRequest(c, path, params, version, rest).query
  {
  }

  /** REST post, put and delete send {"version": v} exactly when the client has a version v. */
  lemma BodyRequestVersion(c: Config, verb: Verb, path: string, body: Option<Json>, rest: bool)
    ensures
      var req := BodyRequest(c, verb, path, body, rest);
      (req.query != [] <==> rest && Given(c.version)) &&
      (req.query != [] ==> req.query == [Param("version", PStr(c.version.value))]) &&
      req.url == (if rest then c.restApiUrl else c.apiUrl) + "/" + c.cleanupPath(path)
  {
  }

  /** The default URLs, an overriding URL kept as given, and trailing slashes removed. */
  lemma ClientUrls()
    ensures BaseUrl(None, DefaultApiUrl) == "https://api.snyk.io/v1"
    ensures BaseUrl(Some(""), DefaultRestApiUrl) == "https://api.snyk.io/rest"
    ensures BaseUrl(Some("https://api.notsnyk.io/v1"), DefaultApiUrl) == "https://api.notsnyk.io/v1"
    ensures BaseUrl(Some("https://api.notsnyk.io/v1//"), DefaultApiUrl) == "https://api.notsnyk.io/v1"
  {
    assert StripTrailingSlashes("https://api.notsnyk.io/v1/") == "https://api.notsnyk.io/v1";
    assert "https://api.notsnyk.io/v1//"[..26] == "https://api.notsnyk.io/v1/";
    assert StripTrailingSlashes("https://api.notsnyk.io/v1//") == "https://api.notsnyk.io/v1";
  }
}
