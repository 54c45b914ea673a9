/**
 * `OrganizationManager.all` and `ProjectManager` (snyk/managers.py): the
 * project query with its tag filter and its own page walk, `filter` and `get`.
 */
module Projects {
  import opened Errors
  import opened Text
  import opened Json
  import opened Client
  import opened Managers
  import opened ProjectFormat

  const TagError: string := "Each tag must contain only a key and a value"

  /** A tag as callers pass it: a dict of strings. */
  type Tag = map<string, string>

  /** A tag holds exactly a "key" and a "value". */
  predicate ValidTag(t: Tag) {
    "key" in t && "value" in t && |t| == 2
  }

  predicate AllValid(tags: seq<Tag>) {
    forall i :: 0 <= i < |tags| ==> ValidTag(tags[i])
  }

  /** Each tag written as its key, a colon and its value. */
  function TagTerms(tags: seq<Tag>): (r: seq<string>)
    requires AllValid(tags)
    ensures |r| == |tags|
  {
    seq(|tags|, i requires 0 <= i < |tags| => tags[i]["key"] + ":" + tags[i]["value"])
  }

  /** The "tags" param: every tag checked first, then the comma-joined `key:value` terms. */
  function TagsParam(tags: seq<Tag>): (r: Result<string>)
    ensures r.Ok? <==> AllValid(tags)
    ensures r.Err? ==> r.error == SnykError(TagError)
    ensures r.Ok? ==> r.value == Join(TagTerms(tags), ",")
  {
    if AllValid(tags) then Ok(Join(TagTerms(tags), ",")) else Err(SnykError(TagError))
  }

  /** The loop of `_query` that rejects a malformed tag, and the join after it. */
  method CheckTags(tags: seq<Tag>) returns (r: Result<string>)
    ensures r == TagsParam(tags)
  {
    for i := 0 to |tags|
      invariant forall j :: 0 <= j < i ==> ValidTag(tags[j])
    {
      var tag := tags[i];
      if "key" !in tag || "value" !in tag || |tag| != 2 {
        return Err(SnykError(TagError));
      }
    }
    var data := TagTerms(tags);
    return Ok(Join(data, ","));
  }

  /**
   * The params of one `_query` call: {"limit": 100}, the tags when some are
   * given, and the issue-count and target expansions on the first page only.
   */
  function QueryParams(tags: seq<Tag>, nextUrl: Json): (r: Result<seq<Param>>)
    ensures r.Ok? <==> tags == [] || AllValid(tags)
    ensures r.Err? ==> r.error == SnykError(TagError)
  {
    if tags != [] && !AllValid(tags) then Err(SnykError(TagError))
    else
      var base := [Param("limit", PInt(100))];
      var tagged := if tags == [] then base else base + [Param("tags", PStr(Join(TagTerms(tags), ",")))];
      Ok(if Truthy(nextUrl) then tagged
         else tagged + [Param("meta.latest_issue_counts", PStr("true")), Param("expand", PStr("target"))])
  }

  /**
   * The `try` of `_query` that moves `attributes.tags` to `attributes._tags`;
   * a missing key is a KeyError it swallows.
   */
  function MoveAttributeTags(d: seq<Entry>): Result<seq<Entry>> {
    if !HasKey(d, "attributes") then Ok(d)
    else
      var attributes := Lookup(d, "attributes").value;
      match PyIndex(attributes, "tags")
      case Err(e) => if e.KeyError? then Ok(d) else Err(e)
      case Ok(t) => Ok(Put(d, "attributes", Object(Remove(Put(attributes.members, "_tags", t), "tags"))))
  }

  /** One project of a page: rewritten, with its organization and a default total of dependencies. */
  function V1Project(item: Json, inst: Instance): Result<Json> {
    var p :- V1Format(item);
    WithOrganization(p.members, inst)
  }

  /** What `_query` adds to a rewritten project `d`. */
  function WithOrganization(d: seq<Entry>, inst: Instance): Result<Json> {
    var withOrg := Put(d, "organization", inst.record);
    var moved :- MoveAttributeTags(withOrg);
    Ok(Object(
      if Truthy(Field(Object(moved), "totalDependencies", Null)) then moved
      else Put(moved, "totalDependencies", Int(0))))
  }

  /** The projects of a page's "data", in order; the first that fails fails the page. */
  function ProjectsOf(items: seq<Json>, inst: Instance): Result<seq<Json>> {
    if items == [] then Ok([])
    else
      var p :- V1Project(items[0], inst);
      var rest :- ProjectsOf(items[1..], inst);
      Ok([p] + rest)
  }

  /**
   * A page's projects exist exactly when every item converts, and then hold
   * each item's project at its own position; `convert` is the conversion of
   * one item, `V1Project` for the page's organization.
   */
  lemma {:induction false} ProjectsOfEach(items: seq<Json>, inst: Instance, convert: Json -> Result<Json>)
    requires forall x :: convert(x) == V1Project(x, inst)
    ensures ProjectsOf(items, inst).Ok? <==> forall i :: 0 <= i < |items| ==> convert(items[i]).Ok?
    ensures ProjectsOf(items, inst).Ok? ==>
              && |ProjectsOf(items, inst).value| == |items|
              && forall i :: 0 <= i < |items| ==> ProjectsOf(items, inst).value[i] == convert(items[i]).value
  {
    if items != [] {
      ProjectsOfEach(items[1..], inst, convert);
      assert forall i :: 1 <= i < |items| ==> items[i] == items[1..][i - 1];
    }
  }

  lemma ProjectsOfStep(items: seq<Json>, i: nat, inst: Instance, p: Result<Json>)
    requires i < |items| && p == V1Project(items[i], inst)
    ensures p.Err? ==> ProjectsOf(items[i..], inst) == Err(p.error)
    ensures p.Ok? ==> ProjectsOf(items[i..], inst) == Prepend([p.value], ProjectsOf(items[i + 1..], inst))
  {
    assert items[i..][0] == items[i];
    assert items[i..][1..] == items[i + 1..];
  }

  /** The loop of `_query` over a page's "data". */
  method ProcessItems(items: seq<Json>, inst: Instance) returns (r: Result<seq<Json>>)
    ensures r == ProjectsOf(items, inst)
  {
    var projects: seq<Json> := [];
    assert items[0..] == items;
    if ProjectsOf(items, inst).Ok? {
      assert [] + ProjectsOf(items, inst).value == ProjectsOf(items, inst).value;
    }
    for i := 0 to |items|
      invariant ProjectsOf(items, inst) == Prepend(projects, ProjectsOf(items[i..], inst))
    {
      var p := V1Project(items[i], inst);
      ProjectsOfStep(items, i, inst, p);
      if p.Err? {
        return Err(p.error);
      }
      PrependTwice(projects, [p.value], ProjectsOf(items[i + 1..], inst));
      projects := projects + [p.value];
    }
    assert items[|items|..] == [];
    assert projects + [] == projects;
    return Ok(projects);
  }

  /**
   * What `_query` reads from one reply: the projects of its "data" (none
   * when it has no "data") and, when there is "data", the "links.next" to
   * query next if the links hold one at all.
   */
  function ReadPage(json: Json, inst: Instance): Result<(seq<Json>, Option<Json>)> {
    var hasData :- PyIn("data", json);
    if !hasData then Ok(([], None))
    else
      var data :- PyIndex(json, "data");
      var items :- PyIterate(data);
      var projects :- ProjectsOf(items, inst);
      var links := Field(json, "links", EmptyObject);
      var hasNext :- PyIn("next", links);
      if !hasNext then Ok((projects, None))
      else
        var next :- PyIndex(links, "next");
        Ok((projects, Some(next)))
  }

  /** `ReadPage`, with the loop over the page's projects. */
  method ReadReply(json: Json, inst: Instance) returns (r: Result<(seq<Json>, Option<Json>)>)
    ensures r == ReadPage(json, inst)
  {
    var hasData := PyIn("data", json);
    if hasData.Err? {
      return Err(hasData.error);
    }
    if !hasData.value {
      return Ok(([], None));
    }
    var data := PyIndex(json, "data");
    if data.Err? {
      return Err(data.error);
    }
    var items := PyIterate(data.value);
    if items.Err? {
      return Err(items.error);
    }
    var projects := ProcessItems(items.value, inst);
    if projects.Err? {
      return Err(projects.error);
    }
    var links := Field(json, "links", EmptyObject);
    var hasNext := PyIn("next", links);
    if hasNext.Err? {
      return Err(hasNext.error);
    }
    if !hasNext.value {
      return Ok((projects.value, None));
    }
    var next := PyIndex(links, "next");
    if next.Err? {
      return Err(next.error);
    }
    return Ok((projects.value, Some(next.value)));
  }

  /**
   * One call of `_query(tags, next_url)` for an organization up to its
   * recursive call: it finishes, or it has the projects of this page and
   * the "next" value to recurse on.
   */
  datatype Step =
    | Done(outcome: Result<seq<Json>>, sent: seq<Request>)
    | More(req: Request, projects: seq<Json>, next: Json)

  /** The path of a `_query` call: the organization's projects, or the given next url. */
  function QueryPath(inst: Instance, nextUrl: Json): string
    requires !Truthy(nextUrl) || nextUrl.Str?
  {
    if Truthy(nextUrl) then nextUrl.s else "/orgs/" + inst.id + "/projects"
  }

  /** The request a `_query` call sends once its params are built. */
  function QueryRequest(c: Config, inst: Instance, params: seq<Param>, nextUrl: Json): Request
    requires !Truthy(nextUrl) || nextUrl.Str?
  {
    GetRequest(c, QueryPath(inst, nextUrl), params, None, true)
  }

  /** What a `_query` call makes of the reply to its request. */
  function Answer(req: Request, reply: Result<Json>, inst: Instance): (s: Step)
    ensures s.Done? ==> s.sent == [req]
    ensures s.More? ==> s.req == req
  {
    if reply.Err? then Done(Err(reply.error), [req])
    else
      var page := ReadPage(reply.value, inst);
      if page.Err? then Done(Err(page.error), [req])
      else if page.value.1.None? then Done(Ok(page.value.0), [req])
      else More(req, page.value.0, page.value.1.value)
  }

  /** One call of `_query(tags, next_url)` for an organization, up to its recursive call. */
  function QueryStep(c: Config, routes: Request -> Reply, inst: Instance, tags: seq<Tag>, nextUrl: Json): (s: Step)
    ensures QueryParams(tags, nextUrl).Err? ==> s == Done(Err(SnykError(TagError)), [])
    ensures s.Done? ==> |s.sent| <= 1
  {
    var params := QueryParams(tags, nextUrl);
    if params.Err? then Done(Err(params.error), [])
    else if Truthy(nextUrl) && !nextUrl.Str? then Done(Err(TypeError), [])
    else
      var req := QueryRequest(c, inst, params.value, nextUrl);
      Answer(req, Receive(routes(req)), inst)
  }

  /** The steps of `_query` for an organization and tags, on a client with settings `c` talking to `routes`. */
  function Steps(c: Config, routes: Request -> Reply, inst: Instance, tags: seq<Tag>): Json -> Step {
    nextUrl => QueryStep(c, routes, inst, tags, nextUrl)
  }

  /**
   * `step` takes the steps of `_query`. The recursion is stated over such a
   * `step` so that proofs about it need not look inside a step.
   */
  ghost predicate StepsOf(step: Json -> Step, c: Config, routes: Request -> Reply, inst: Instance, tags: seq<Tag>) {
    forall n {:trigger QueryStep(c, routes, inst, tags, n)} :: step(n) == QueryStep(c, routes, inst, tags, n)
  }

  /**
   * The recursion of `_query` from `nextUrl`, with its steps given by `step`,
   * recursing at most `fuel` times; None when the chain of pages is longer.
   */
  function Pages(step: Json -> Step, nextUrl: Json, fuel: nat): Option<Exchange<seq<Json>>>
    decreases fuel
  {
    var s := step(nextUrl);
    if s.Done? then Some(Exchange(s.outcome, s.sent))
    else if fuel == 0 then None
    else
      var w := Pages(step, s.next, fuel - 1);
      if w.None? then None
      else Some(Exchange(Prepend(s.projects, w.value.outcome), [s.req] + w.value.sent))
  }

  /** `_query(tags, next_url)` for an organization. */
  function QueryPages(c: Config, routes: Request -> Reply, inst: Instance, tags: seq<Tag>, nextUrl: Json, fuel: nat)
    : Option<Exchange<seq<Json>>>
  {
    Pages(Steps(c, routes, inst, tags), nextUrl, fuel)
  }

  /** What `OrganizationManager.all` reads from the reply to "orgs": its "orgs" list, if any. */
  function OrgRecords(json: Json): (r: Result<seq<Json>>)
    ensures json.Object? && !HasKey(json.members, "orgs") ==> r == Ok([])
    ensures json.Object? && HasKey(json.members, "orgs") && Lookup(json.members, "orgs").value.Array? ==>
              r == Ok(Lookup(json.members, "orgs").value.items)
  {
    var hasOrgs :- PyIn("orgs", json);
    if !hasOrgs then Ok([])
    else
      var orgs :- PyIndex(json, "orgs");
      PyIterate(orgs)
  }

  /** The request of `OrganizationManager.all`. */
  function OrgsRequest(c: Config): Request {
    GetRequest(c, "orgs", [], None, false)
  }

  /** `Organization.from_dict(org)`: the object needs a string id. */
  function OrgInstance(org: Json): (r: Result<Instance>)
    ensures r.Ok? <==> HasAttr(org, "id") && Lookup(org.members, "id").value.Str?
    ensures r.Ok? ==> r.value.organization.None? && r.value.record == org
    ensures r.Ok? ==> Lookup(org.members, "id") == Some(Str(r.value.id))
    ensures r.Err? ==> r.error == TypeError
  {
    if org.Object? && HasKey(org.members, "id") && Lookup(org.members, "id").value.Str? then
      Ok(Instance(Lookup(org.members, "id").value.s, None, org))
    else Err(TypeError)
  }

  /** The organizations of a list of records, in order; the first malformed one fails the list. */
  function OrgInstances(orgs: seq<Json>): (r: Result<seq<Instance>>)
    ensures r.Ok? <==> forall i :: 0 <= i < |orgs| ==> OrgInstance(orgs[i]).Ok?
    ensures r.Ok? ==> |r.value| == |orgs| && forall i :: 0 <= i < |orgs| ==> r.value[i] == OrgInstance(orgs[i]).value
    ensures r.Err? ==> r.error == TypeError
  {
    if orgs == [] then Ok([])
    else
      var o :- OrgInstance(orgs[0]);
      var rest :- OrgInstances(orgs[1..]);
      assert forall i :: 1 <= i < |orgs| ==> orgs[i] == orgs[1..][i - 1];
      Ok([o] + rest)
  }

  /** `OrganizationManager.all()`: one GET of "orgs" and the organizations it lists. */
  function Organizations(c: Config, routes: Request -> Reply): (r: Exchange<seq<Instance>>)
    ensures r.sent == [OrgsRequest(c)]
  {
    var reply := Receive(routes(OrgsRequest(c)));
    if reply.Err? then Exchange(Err(reply.error), [OrgsRequest(c)])
    else
      var records := OrgRecords(reply.value);
      if records.Err? then Exchange(Err(records.error), [OrgsRequest(c)])
      else Exchange(OrgInstances(records.value), [OrgsRequest(c)])
  }

  /**
   * The projects of each organization in turn, where `query` lists the
   * projects of one organization; the first failure stops the rest.
   */
  function AcrossOrgs(orgs: seq<Instance>, query: Instance -> Option<Exchange<seq<Json>>>): Option<Exchange<seq<Json>>> {
    if orgs == [] then Some(Exchange(Ok([]), []))
    else
      var q := query(orgs[0]);
      if q.None? then None
      else if q.value.outcome.Err? then q
      else
        var w := AcrossOrgs(orgs[1..], query);
        if w.None? then None
        else Some(Exchange(Prepend(q.value.outcome.value, w.value.outcome), q.value.sent + w.value.sent))
  }

  /**
   * The walk across organizations succeeds only when every organization's
   * query does, and fails with the error of one of them.
   */
  lemma {:induction false} AcrossOrgsOutcome(orgs: seq<Instance>, query: Instance -> Option<Exchange<seq<Json>>>)
    requires AcrossOrgs(orgs, query).Some?
    ensures AcrossOrgs(orgs, query).value.outcome.Ok? ==>
              forall i :: 0 <= i < |orgs| ==> query(orgs[i]).Some? && query(orgs[i]).value.outcome.Ok?
    ensures AcrossOrgs(orgs, query).value.outcome.Err? ==>
              exists i :: 0 <= i < |orgs| && query(orgs[i]).Some? && query(orgs[i]).value.outcome == AcrossOrgs(orgs, query).value.outcome
  {
    if orgs != [] && query(orgs[0]).value.outcome.Ok? {
      AcrossOrgsOutcome(orgs[1..], query);
      assert forall i :: 1 <= i < |orgs| ==> orgs[i] == orgs[1..][i - 1];
      if AcrossOrgs(orgs, query).value.outcome.Err? {
        var i :| 0 <= i < |orgs[1..]| && query(orgs[1..][i]).Some? && query(orgs[1..][i]).value.outcome == AcrossOrgs(orgs, query).value.outcome;
        assert orgs[i + 1] == orgs[1..][i];
      }
    }
  }

  /** `query` is what `org.projects.all()` does for one organization. */
  ghost predicate QueriesOf(query: Instance -> Option<Exchange<seq<Json>>>, c: Config, routes: Request -> Reply, fuel: nat) {
    forall o {:trigger QueryPages(c, routes, o, [], Null, fuel)} :: query(o) == QueryPages(c, routes, o, [], Null, fuel)
  }

  /** What `org.projects.all()` does for one organization. */
  function OrgProjects(c: Config, routes: Request -> Reply, fuel: nat): Instance -> Option<Exchange<seq<Json>>> {
    org => QueryPages(c, routes, org, [], Null, fuel)
  }

  /** `_query` without an organization: the projects of every organization, in order. */
  function AllOrgsProjects(c: Config, routes: Request -> Reply, fuel: nat): Option<Exchange<seq<Json>>> {
    var o := Organizations(c, routes);
    if o.outcome.Err? then Some(Exchange(Err(o.outcome.error), o.sent))
    else
      var w := AcrossOrgs(o.outcome.value, OrgProjects(c, routes, fuel));
      if w.None? then None
      else Some(Exchange(w.value.outcome, o.sent + w.value.sent))
  }

  /** `_query(tags, next_url)` of a project manager scoped to `instance`, or to none. */
  function ProjectQuery(c: Config, routes: Request -> Reply, instance: Option<Instance>, tags: seq<Tag>, nextUrl: Json, fuel: nat)
    : Option<Exchange<seq<Json>>>
  {
    if instance.Some? then QueryPages(c, routes, instance.value, tags, nextUrl, fuel)
    else AllOrgsProjects(c, routes, fuel)
  }

  /** `ProjectManager.filter(tags, **kwargs)`: the queried projects whose attributes match. */
  function ProjectFilter(c: Config, routes: Request -> Reply, instance: Option<Instance>, tags: seq<Tag>, kwargs: seq<Entry>, fuel: nat)
    : Option<Exchange<seq<Json>>>
  {
    var q := if tags != [] then ProjectQuery(c, routes, instance, tags, Null, fuel) else ProjectQuery(c, routes, instance, [], Null, fuel);
    if q.None? then None
    else if q.value.outcome.Err? then q
    else Some(Exchange(Selected(q.value.outcome.value, kwargs), q.value.sent))
  }

  /** The path of `ProjectManager.get` for an organization. */
  function ProjectPath(inst: Instance, id: string): string {
    "org/" + inst.id + "/project/" + id
  }

  /**
   * The record `ProjectManager.get` makes of the reply: its organization set,
   * "tags" moved to "_tags" when present, and a missing or null
   * "totalDependencies" set to 0.
   */
  function ProjectRecord(json: Json, inst: Instance): Result<Json> {
    if !json.Object? then Err(TypeError)
    else Ok(Object(DefaultTotal(MoveTags(Put(json.members, "organization", inst.record)))))
  }

  /** The `try` of `get`: "tags" moved to "_tags", when there are tags. */
  function MoveTags(d: seq<Entry>): (r: seq<Entry>)
    ensures !HasKey(r, "tags")
    ensures HasKey(d, "tags") ==> Lookup(r, "_tags") == Lookup(d, "tags")
    ensures !HasKey(d, "tags") ==> r == d
    ensures forall k :: k != "tags" && k != "_tags" ==> Lookup(r, k) == Lookup(d, k)
  {
    if HasKey(d, "tags") then Remove(Put(d, "_tags", Lookup(d, "tags").value), "tags") else d
  }

  /** A missing or null "totalDependencies" is set to 0. */
  function DefaultTotal(d: seq<Entry>): (r: seq<Entry>)
    ensures Lookup(d, "totalDependencies") in {None, Some(Null)} ==> Lookup(r, "totalDependencies") == Some(Int(0))
    ensures Lookup(d, "totalDependencies") !in {None, Some(Null)} ==> r == d
    ensures forall k :: k != "totalDependencies" ==> Lookup(r, k) == Lookup(d, k)
  {
    var total := Lookup(d, "totalDependencies");
    if total.None? || total.value.Null? then Put(d, "totalDependencies", Int(0)) else d
  }

  /** `ProjectManager.get(id)`: one GET for an organization, else a search of every project. */
  function ProjectGet(c: Config, routes: Request -> Reply, instance: Option<Instance>, id: string, fuel: nat)
    : Option<Exchange<Json>>
  {
    if instance.Some? then
      var req := GetRequest(c, ProjectPath(instance.value, id), [], None, false);
      var reply := Receive(routes(req));
      Some(Exchange(if reply.Err? then Err(reply.error) else ProjectRecord(reply.value, instance.value), [req]))
    else
      var q := ProjectQuery(c, routes, None, [], Null, fuel);
      if q.None? then None
      else if q.value.outcome.Err? then Some(Exchange(Err(q.value.outcome.error), q.value.sent))
      else Some(Exchange(FindById(q.value.outcome.value, id), q.value.sent))
  }

  /** One organization's part of the walk across organizations. */
  lemma AcrossOrgsStep(orgs: seq<Instance>, i: nat, query: Instance -> Option<Exchange<seq<Json>>>)
    requires i < |orgs| && AcrossOrgs(orgs[i..], query).Some?
    ensures query(orgs[i]).Some?
    ensures query(orgs[i]).value.outcome.Err? ==> AcrossOrgs(orgs[i..], query) == query(orgs[i])
    ensures query(orgs[i]).value.outcome.Ok? ==>
              && AcrossOrgs(orgs[i + 1..], query).Some?
              && AcrossOrgs(orgs[i..], query).value.outcome
                 == Prepend(query(orgs[i]).value.outcome.value, AcrossOrgs(orgs[i + 1..], query).value.outcome)
              && AcrossOrgs(orgs[i..], query).value.sent
                 == query(orgs[i]).value.sent + AcrossOrgs(orgs[i + 1..], query).value.sent
  {
    assert orgs[i..][0] == orgs[i];
    assert orgs[i..][1..] == orgs[i + 1..];
  }

  lemma SentInTurn(log: seq<Request>, now: seq<Request>, later: seq<Request>)
    ensures log + (now + later) == (log + now) + later
  {
  }

  lemma StepsAre(c: Config, routes: Request -> Reply, inst: Instance, tags: seq<Tag>)
    ensures StepsOf(Steps(c, routes, inst, tags), c, routes, inst, tags)
  {
  }

  /** `Answer`, reading the reply with its loop over the projects. */
  method Answered(req: Request, reply: Result<Json>, inst: Instance) returns (s: Step)
    ensures s == Answer(req, reply, inst)
  {
    if reply.Err? {
      return Done(Err(reply.error), [req]);
    }
    var page := ReadReply(reply.value, inst);
    if page.Err? {
      return Done(Err(page.error), [req]);
    }
    if page.value.1.None? {
      return Done(Ok(page.value.0), [req]);
    }
    return More(req, page.value.0, page.value.1.value);
  }

  /** `OrganizationManager` over a client. */
  class OrganizationManager {
    const client: SnykClient

    constructor (client: SnykClient)
      ensures this.client == client
    {
      this.client := client;
    }

    /** `all()`: the organizations listed by "orgs". */
    method All(tr: Transport) returns (r: Result<seq<Instance>>)
      modifies tr
      ensures r == Organizations(client.Settings(), tr.routes).outcome
      ensures tr.log == old(tr.log) + Organizations(client.Settings(), tr.routes).sent
    {
      var resp := client.Get(tr, "orgs", null, None, false);
      if resp.Err? {
        return Err(resp.error);
      }
      var records := OrgRecords(resp.value);
      if records.Err? {
        return Err(records.error);
      }
      var orgs: seq<Instance> := [];
      for i := 0 to |records.value|
        invariant |orgs| == i
        invariant forall j :: 0 <= j < i ==> OrgInstance(records.value[j]) == Ok(orgs[j])
      {
        var org := OrgInstance(records.value[i]);
        if org.Err? {
          return Err(org.error);
        }
        orgs := orgs + [org.value];
      }
      assert OrgInstances(records.value).Ok?;
      assert orgs == OrgInstances(records.value).value;
      return Ok(orgs);
    }
  }

  /** `ProjectManager` over a client, scoped to an organization or to none. */
  class ProjectManager {
    const client: SnykClient
    const instance: Option<Instance>

    constructor (client: SnykClient, instance: Option<Instance>)
      ensures this.client == client && this.instance == instance
    {
      this.client := client;
      this.instance := instance;
    }

    /** One call of `_query` for the organization, up to its recursive call. */
    method QueryPage(tr: Transport, tags: seq<Tag>, nextUrl: Json, ghost step: Json -> Step) returns (s: Step)
      requires instance.Some? && StepsOf(step, client.Settings(), tr.routes, instance.value, tags)
      modifies tr
      ensures s == step(nextUrl)
      ensures tr.log == old(tr.log) + (if s.Done? then s.sent else [s.req])
    {
      assert step(nextUrl) == QueryStep(client.Settings(), tr.routes, instance.value, tags, nextUrl);
      var params := [Param("limit", PInt(100))];
      // tags, when given, are checked and joined into one parameter
      if tags != [] {
        var joined := CheckTags(tags);
        if joined.Err? {
          return Done(Err(joined.error), []);
        }
        params := params + [Param("tags", PStr(joined.value))];
      }
      // The issue counts and targets are asked for on the first page only
      if !Truthy(nextUrl) {
        params := params + [Param("meta.latest_issue_counts", PStr("true")), Param("expand", PStr("target"))];
      }
      if Truthy(nextUrl) && !nextUrl.Str? {
        return Done(Err(TypeError), []);
      }
      var path := if Truthy(nextUrl) then nextUrl.s else "/orgs/" + instance.value.id + "/projects";
      var dict := new ParamDict(params);
      var req := GetRequest(client.Settings(), path, params, None, true);
      var resp := client.Get(tr, path, dict, None, true);
      s := Answered(req, resp, instance.value);
    }

    /** `_query(tags, next_url)` for the organization: this page, then the pages after it. */
    method QueryOrg(tr: Transport, tags: seq<Tag>, nextUrl: Json, ghost step: Json -> Step, ghost fuel: nat)
      returns (r: Result<seq<Json>>)
      requires instance.Some? && StepsOf(step, client.Settings(), tr.routes, instance.value, tags)
      requires Pages(step, nextUrl, fuel).Some?
      modifies tr
      ensures r == Pages(step, nextUrl, fuel).value.outcome
      ensures tr.log == old(tr.log) + Pages(step, nextUrl, fuel).value.sent
      decreases fuel
    {
      var s := QueryPage(tr, tags, nextUrl, step);
      if s.Done? {
        return s.outcome;
      }
      // the page links on: recurse with its link and put this page's projects first
      var rest := QueryOrg(tr, tags, s.next, step, fuel - 1);
      assert tr.log == old(tr.log) + ([s.req] + Pages(step, s.next, fuel - 1).value.sent);
      r := Prepend(s.projects, rest);
    }

    /** `_query(tags, next_url)`. */
    method Query(tr: Transport, tags: seq<Tag>, nextUrl: Json, ghost fuel: nat) returns (r: Result<seq<Json>>)
      requires ProjectQuery(client.Settings(), tr.routes, instance, tags, nextUrl, fuel).Some?
      modifies tr
      ensures r == ProjectQuery(client.Settings(), tr.routes, instance, tags, nextUrl, fuel).value.outcome
      ensures tr.log == old(tr.log) + ProjectQuery(client.Settings(), tr.routes, instance, tags, nextUrl, fuel).value.sent
    {
      if instance.Some? {
        StepsAre(client.Settings(), tr.routes, instance.value, tags);
        r := QueryOrg(tr, tags, nextUrl, Steps(client.Settings(), tr.routes, instance.value, tags), fuel);
      } else {
        r := QueryAllOrgs(tr, fuel);
      }
    }

    /** `_query` without an organization: every organization's `projects.all()`, in turn. */
    method QueryAllOrgs(tr: Transport, ghost fuel: nat) returns (r: Result<seq<Json>>)
      requires AllOrgsProjects(client.Settings(), tr.routes, fuel).Some?
      modifies tr
      ensures r == AllOrgsProjects(client.Settings(), tr.routes, fuel).value.outcome
      ensures tr.log == old(tr.log) + AllOrgsProjects(client.Settings(), tr.routes, fuel).value.sent
    {
      var organizations := new OrganizationManager(client);
      var orgs := organizations.All(tr);
      if orgs.Err? {
        return Err(orgs.error);
      }
      ghost var listed := tr.log;
      ghost var query := OrgProjects(client.Settings(), tr.routes, fuel);
      assert QueriesOf(query, client.Settings(), tr.routes, fuel);
      r := QueryEach(tr, orgs.value, query, fuel);
      SentInTurn(old(tr.log), Organizations(client.Settings(), tr.routes).sent, AcrossOrgs(orgs.value, query).value.sent);
    }

    /** The loop over the organizations of `_query` without an organization. */
    method QueryEach(tr: Transport, orgs: seq<Instance>, ghost query: Instance -> Option<Exchange<seq<Json>>>, ghost fuel: nat)
      returns (r: Result<seq<Json>>)
      requires QueriesOf(query, client.Settings(), tr.routes, fuel)
      requires AcrossOrgs(orgs, query).Some?
      modifies tr
      ensures r == AcrossOrgs(orgs, query).value.outcome
      ensures tr.log == old(tr.log) + AcrossOrgs(orgs, query).value.sent
    {
      ghost var total := AcrossOrgs(orgs, query).value;
      ghost var log0 := tr.log;
      assert orgs[0..] == orgs;
      if total.outcome.Ok? {
        assert [] + total.outcome.value == total.outcome.value;
      }
      var projects: seq<Json> := [];
      for i := 0 to |orgs|
        invariant AcrossOrgs(orgs[i..], query).Some?
        invariant total.outcome == Prepend(projects, AcrossOrgs(orgs[i..], query).value.outcome)
        invariant log0 + total.sent == tr.log + AcrossOrgs(orgs[i..], query).value.sent
      {
        AcrossOrgsStep(orgs, i, query);
        ghost var here := AcrossOrgs(orgs[i..], query).value;
        ghost var this_org := query(orgs[i]).value;
        ghost var rest := AcrossOrgs(orgs[i + 1..], query);
        ghost var before := tr.log;
        StepsAre(client.Settings(), tr.routes, orgs[i], []);
        assert this_org == QueryPages(client.Settings(), tr.routes, orgs[i], [], Null, fuel).value;
        var manager := new ProjectManager(client, Some(orgs[i]));
        var more := manager.QueryOrg(tr, [], Null, Steps(client.Settings(), tr.routes, orgs[i], []), fuel);
        assert more == this_org.outcome && tr.log == before + this_org.sent;
        if more.Err? {
          assert here == this_org;
          return Err(more.error);
        }
        SentInTurn(before, this_org.sent, rest.value.sent);
        PrependTwice(projects, more.value, rest.value.outcome);
        projects := projects + more.value;
      }
      assert orgs[|orgs|..] == [];
      assert projects + [] == projects;
      return Ok(projects);
    }

    /** `all()`: the query from the first page, with no tags. */
    method All(tr: Transport, ghost fuel: nat) returns (r: Result<seq<Json>>)
      requires ProjectQuery(client.Settings(), tr.routes, instance, [], Null, fuel).Some?
      modifies tr
      ensures r == ProjectQuery(client.Settings(), tr.routes, instance, [], Null, fuel).value.outcome
      ensures tr.log == old(tr.log) + ProjectQuery(client.Settings(), tr.routes, instance, [], Null, fuel).value.sent
    {
      r := Query(tr, [], Null, fuel);
    }

    /** `filter(tags, **kwargs)`. */
    method Filter(tr: Transport, tags: seq<Tag>, kwargs: seq<Entry>, ghost fuel: nat) returns (r: Result<seq<Json>>)
      requires ProjectFilter(client.Settings(), tr.routes, instance, tags, kwargs, fuel).Some?
      modifies tr
      ensures r == ProjectFilter(client.Settings(), tr.routes, instance, tags, kwargs, fuel).value.outcome
      ensures tr.log == old(tr.log) + ProjectFilter(client.Settings(), tr.routes, instance, tags, kwargs, fuel).value.sent
    {
      var projects;
      if tags != [] {
        projects := Query(tr, tags, Null, fuel);
      } else {
        projects := All(tr, fuel);
      }
      if projects.Err? {
        return projects;
      }
      r := FilterByKwargs(projects.value, kwargs);
    }

    /** `get(id)`. */
    method Get(tr: Transport, id: string, ghost fuel: nat) returns (r: Result<Json>)
      requires ProjectGet(client.Settings(), tr.routes, instance, id, fuel).Some?
      modifies tr
      ensures r == ProjectGet(client.Settings(), tr.routes, instance, id, fuel).value.outcome
      ensures tr.log == old(tr.log) + ProjectGet(client.Settings(), tr.routes, instance, id, fuel).value.sent
    {
      if instance.Some? {
        var resp := client.Get(tr, ProjectPath(instance.value, id), null, None, false);
        if resp.Err? {
          return Err(resp.error);
        }
        return ProjectRecord(resp.value, instance.value);
      }
      var projects := All(tr, fuel);
      if projects.Err? {
        return Err(projects.error);
      }
      r := FindById(projects.value, id);
    }
  }
}
