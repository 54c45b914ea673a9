/**
 * What the project query, `filter` and `get` of snyk/managers.py promise,
 * stated over the model in module Projects.
 */
module ProjectProperties {
  import opened Errors
  import opened Text
  import opened Json
  import opened Client
  import opened Managers
  import opened ProjectFormat
  import opened Projects

  /**
   * The params of a `_query` call: a limit of 100 first, the joined tags
   * exactly when some are given, and the issue-count and target expansions
   * exactly on the first page.
   */
  lemma QueryParamsShape(tags: seq<Tag>, nextUrl: Json)
    requires tags == [] || AllValid(tags)
    ensures QueryParams(tags, nextUrl).Ok?
    ensures QueryParams(tags, nextUrl).value[0] == Param("limit", PInt(100))
    ensures HasParam(QueryParams(tags, nextUrl).value, "tags") <==> tags != []
    ensures tags != [] ==> Param("tags", PStr(Join(TagTerms(tags), ","))) in QueryParams(tags, nextUrl).value
    ensures HasParam(QueryParams(tags, nextUrl).value, "expand") <==> !Truthy(nextUrl)
    ensures HasParam(QueryParams(tags, nextUrl).value, "meta.latest_issue_counts") <==> !Truthy(nextUrl)
  {
    var ps := QueryParams(tags, nextUrl).value;
    var n := if tags == [] then 1 else 2;
    assert tags != [] ==> ps[1] == Param("tags", PStr(Join(TagTerms(tags), ",")));
    assert !Truthy(nextUrl) ==> ps[n].name == "meta.latest_issue_counts" && ps[n + 1].name == "expand";
  }

  /** A falsy `next_url` is the first page again: only its truthiness is read. */
  lemma FalsyNextRestarts(c: Config, routes: Request -> Reply, inst: Instance, tags: seq<Tag>, nextUrl: Json)
    requires !Truthy(nextUrl)
    ensures QueryStep(c, routes, inst, tags, nextUrl) == QueryStep(c, routes, inst, tags, Null)
  {
  }

  /** A recursion whose next step repeats this one never ends. */
  lemma {:induction false} PagesCycle(step: Json -> Step, nextUrl: Json, fuel: nat)
    requires step(nextUrl).More?
    requires step(step(nextUrl).next) == step(nextUrl)
    ensures Pages(step, nextUrl, fuel) == None
    decreases fuel
  {
    if fuel > 0 {
      PagesCycle(step, step(nextUrl).next, fuel - 1);
    }
  }

  /**
   * A first page whose "links" hold a "next" that is null (or any falsy
   * value) sends `_query` back to the first page, again and again: the
   * recursion never ends, however deep it may go.
   */
  lemma NullNextNeverEnds(c: Config, routes: Request -> Reply, inst: Instance, tags: seq<Tag>, fuel: nat)
    requires QueryStep(c, routes, inst, tags, Null).More?
    requires !Truthy(QueryStep(c, routes, inst, tags, Null).next)
    ensures QueryPages(c, routes, inst, tags, Null, fuel) == None
  {
    var step := Steps(c, routes, inst, tags);
    FalsyNextRestarts(c, routes, inst, tags, QueryStep(c, routes, inst, tags, Null).next);
    assert step(step(Null).next) == step(Null);
    PagesCycle(step, Null, fuel);
  }

  /** More fuel changes nothing once the recursion has ended. */
  lemma {:induction false} PagesFuel(step: Json -> Step, nextUrl: Json, fuel: nat, more: nat)
    requires Pages(step, nextUrl, fuel).Some?
    ensures Pages(step, nextUrl, fuel + more) == Pages(step, nextUrl, fuel)
    decreases fuel
  {
    if step(nextUrl).More? {
      PagesFuel(step, step(nextUrl).next, fuel - 1, more);
    }
  }

  /** A step sends GETs only, and when it finishes, at most one. */
  predicate SendsGets(s: Step) {
    && (s.Done? ==> |s.sent| <= 1 && forall i :: 0 <= i < |s.sent| ==> s.sent[i].verb == GET)
    && (s.More? ==> s.req.verb == GET)
  }

  lemma StepSendsGets(c: Config, routes: Request -> Reply, inst: Instance, tags: seq<Tag>, nextUrl: Json)
    ensures SendsGets(QueryStep(c, routes, inst, tags, nextUrl))
  {
  }

  /** Each call of the recursion sends one GET, so at most one more than there are recursive calls. */
  lemma {:induction false} PagesSent(step: Json -> Step, nextUrl: Json, fuel: nat)
    requires forall n :: SendsGets(step(n))
    requires Pages(step, nextUrl, fuel).Some?
    ensures |Pages(step, nextUrl, fuel).value.sent| <= fuel + 1
    ensures forall i :: 0 <= i < |Pages(step, nextUrl, fuel).value.sent| ==> Pages(step, nextUrl, fuel).value.sent[i].verb == GET
    decreases fuel
  {
    var s := step(nextUrl);
    assert SendsGets(s);
    if s.More? {
      PagesSent(step, s.next, fuel - 1);
      var rest := Pages(step, s.next, fuel - 1).value.sent;
      assert Pages(step, nextUrl, fuel).value.sent == [s.req] + rest;
    }
  }

  /** `_query` for an organization sends only GETs, one per page. */
  lemma QuerySent(c: Config, routes: Request -> Reply, inst: Instance, tags: seq<Tag>, nextUrl: Json, fuel: nat)
    requires QueryPages(c, routes, inst, tags, nextUrl, fuel).Some?
    ensures |QueryPages(c, routes, inst, tags, nextUrl, fuel).value.sent| <= fuel + 1
    ensures forall i :: 0 <= i < |QueryPages(c, routes, inst, tags, nextUrl, fuel).value.sent| ==>
              QueryPages(c, routes, inst, tags, nextUrl, fuel).value.sent[i].verb == GET
  {
    var step := Steps(c, routes, inst, tags);
    forall n
      ensures SendsGets(step(n))
    {
      StepSendsGets(c, routes, inst, tags, n);
    }
    PagesSent(step, nextUrl, fuel);
  }

  /** Tags that break the rule are refused before anything is sent. */
  lemma RejectedTagsSendNothing(c: Config, routes: Request -> Reply, inst: Instance, tags: seq<Tag>, nextUrl: Json, fuel: nat)
    requires tags != [] && !AllValid(tags)
    ensures QueryPages(c, routes, inst, tags, nextUrl, fuel) == Some(Exchange(Err(SnykError(TagError)), []))
  {
  }

  /** The first request of a query: a REST GET of the organization's projects, with its params. */
  lemma FirstRequest(c: Config, routes: Request -> Reply, inst: Instance, tags: seq<Tag>, fuel: nat)
    requires tags == [] || AllValid(tags)
    requires QueryPages(c, routes, inst, tags, Null, fuel).Some?
    ensures QueryPages(c, routes, inst, tags, Null, fuel).value.sent != []
    ensures QueryPages(c, routes, inst, tags, Null, fuel).value.sent[0]
            == GetRequest(c, "/orgs/" + inst.id + "/projects", QueryParams(tags, Null).value, None, true)
  {
    var s := QueryStep(c, routes, inst, tags, Null);
    assert s.Done? ==> s.sent == [GetRequest(c, "/orgs/" + inst.id + "/projects", QueryParams(tags, Null).value, None, true)];
  }

    /**
   * The `try` of `_query` on attributes holding "tags": the value moves to
   * "_tags", "tags" is gone, and every other key, inside the attributes or
   * beside them, keeps its value.
   */
  lemma AttributeTagsMoved(d: seq<Entry>, ms: seq<Entry>, t: Json)
    requires Lookup(d, "attributes") == Some(Object(ms)) && Lookup(ms, "tags") == Some(t)
    ensures MoveAttributeTags(d).Ok?
    ensures var r := MoveAttributeTags(d).value;
      var a := Lookup(r, "attributes");
      && a.Some? && a.value.Object?
      && Lookup(a.value.members, "_tags") == Some(t)
      && !HasKey(a.value.members, "tags")
      && (forall k :: k != "tags" && k != "_tags" ==> Lookup(a.value.members, k) == Lookup(ms, k))
      && (forall k :: k != "attributes" ==> Lookup(r, k) == Lookup(d, k))
  {
  }

  /** Attributes without "tags", or no attributes at all: the KeyError is swallowed and nothing changes. */
  lemma AttributeTagsAbsent(d: seq<Entry>)
    requires !HasKey(d, "attributes") || (Lookup(d, "attributes").value.Object? && !HasKey(Lookup(d, "attributes").value.members, "tags"))
    ensures MoveAttributeTags(d) == Ok(d)
  {
  }

/**
   * What `_query` adds to a rewritten project, which has no "attributes",
   * "organization" or "totalDependencies": the organization's record and a
   * "totalDependencies" of 0, appended in that order; the tag move finds no
   * "attributes" to act on.
   */
  lemma WithOrganizationShape(d: seq<Entry>, inst: Instance)
    requires !HasKey(d, "attributes") && !HasKey(d, "organization") && !HasKey(d, "totalDependencies")
    ensures WithOrganization(d, inst)
            == Ok(Object(d + [Entry("organization", inst.record), Entry("totalDependencies", Int(0))]))
  {
    var withOrg := Put(d, "organization", inst.record);
    assert withOrg == d + [Entry("organization", inst.record)];
    assert Lookup(withOrg, "attributes") == None;
    assert MoveAttributeTags(withOrg) == Ok(withOrg);
    assert Lookup(withOrg, "totalDependencies") == None;
    assert withOrg + [Entry("totalDependencies", Int(0))] == d + [Entry("organization", inst.record), Entry("totalDependencies", Int(0))];
  }

  /**
   * Every project `_query` returns is the rewritten record followed by the
   * organization's record under "organization" and a "totalDependencies" of 0.
   */
  lemma V1ProjectShape(item: Json, inst: Instance)
    ensures V1Project(item, inst).Ok? <==> Shaped(item)
    ensures V1Project(item, inst).Ok? ==>
              V1Project(item, inst)
              == Ok(Object(V1Format(item).value.members
                           + [Entry("organization", inst.record), Entry("totalDependencies", Int(0))]))
  {
    V1FormatTotal(item);
    if Shaped(item) {
      V1FormatLacks(item);
      WithOrganizationShape(V1Format(item).value.members, inst);
    }
  }

  /**
   * `get` for an organization: a dict reply is kept with its organization
   * set, "tags" moved to "_tags", and "totalDependencies" set to 0 when it
   * is missing or null; anything else is a TypeError.
   */
  lemma ProjectRecordShape(json: Json, inst: Instance)
    ensures ProjectRecord(json, inst).Ok? <==> json.Object?
    ensures !json.Object? ==> ProjectRecord(json, inst) == Err(TypeError)
    ensures json.Object? ==>
              var before := json.members;
              var after := ProjectRecord(json, inst).value.members;
              && Lookup(after, "organization") == Some(inst.record)
              && !HasKey(after, "tags")
              && (HasKey(before, "tags") ==> Lookup(after, "_tags") == Lookup(before, "tags"))
              && (!HasKey(before, "tags") ==> Lookup(after, "_tags") == Lookup(before, "_tags"))
              && (Lookup(before, "totalDependencies") in {None, Some(Null)} ==> Lookup(after, "totalDependencies") == Some(Int(0)))
              && (Lookup(before, "totalDependencies") !in {None, Some(Null)} ==>
                    Lookup(after, "totalDependencies") == Lookup(before, "totalDependencies"))
              && forall k :: k != "organization" && k != "tags" && k != "_tags" && k != "totalDependencies" ==>
                               Lookup(after, k) == Lookup(before, k)
  {
    if json.Object? {
      var before := json.members;
      var withOrg := Put(before, "organization", inst.record);
      var moved := MoveTags(withOrg);
      var after := DefaultTotal(moved);
      assert ProjectRecord(json, inst).value.members == after;
      assert Lookup(withOrg, "tags") == Lookup(before, "tags");
      assert Lookup(withOrg, "_tags") == Lookup(before, "_tags");
      assert Lookup(moved, "totalDependencies") == Lookup(before, "totalDependencies");
      assert Lookup(after, "organization") == Some(inst.record);
      assert Lookup(after, "tags") == Lookup(moved, "tags") == None;
      assert Lookup(after, "_tags") == Lookup(moved, "_tags");
      assert HasKey(withOrg, "tags") == HasKey(before, "tags");
      forall k | k != "organization" && k != "tags" && k != "_tags" && k != "totalDependencies"
        ensures Lookup(after, k) == Lookup(before, k)
      {
        assert Lookup(moved, k) == Lookup(withOrg, k);
      }
    }
  }

  /** `filter` keeps, in order, the queried projects that match every keyword argument. */
  lemma FilterIsWhere(c: Config, routes: Request -> Reply, instance: Option<Instance>, tags: seq<Tag>, kwargs: seq<Entry>, fuel: nat)
    requires ProjectQuery(c, routes, instance, tags, Null, fuel).Some?
    requires ProjectQuery(c, routes, instance, tags, Null, fuel).value.outcome.Ok?
    requires Attributed(ProjectQuery(c, routes, instance, tags, Null, fuel).value.outcome.value, kwargs)
    ensures ProjectFilter(c, routes, instance, tags, kwargs, fuel)
            == Some(Exchange(Ok(Where(ProjectQuery(c, routes, instance, tags, Null, fuel).value.outcome.value, kwargs)),
                             ProjectQuery(c, routes, instance, tags, Null, fuel).value.sent))
  {
    SelectedIsWhere(ProjectQuery(c, routes, instance, tags, Null, fuel).value.outcome.value, kwargs);
  }

  /** Without an organization, `get` finds a queried project carrying the id, or says why not. */
  lemma GetSearchesAll(c: Config, routes: Request -> Reply, id: string, fuel: nat)
    requires ProjectGet(c, routes, None, id, fuel).Some?
    ensures var all := ProjectQuery(c, routes, None, [], Null, fuel);
      && all.Some?
      && ProjectGet(c, routes, None, id, fuel).value.sent == all.value.sent
      && (ProjectGet(c, routes, None, id, fuel).value.outcome.Ok? ==>
            && all.value.outcome.Ok?
            && ProjectGet(c, routes, None, id, fuel).value.outcome.value in all.value.outcome.value
            && IdIs(ProjectGet(c, routes, None, id, fuel).value.outcome.value, id))
      && ((all.value.outcome.Ok? && forall x :: x in all.value.outcome.value ==> HasAttr(x, "id") && !IdIs(x, id))
            ==> ProjectGet(c, routes, None, id, fuel).value.outcome == Err(NotFound))
  {
  }

  /** With an organization, `get` is one v1 GET of the project. */
  lemma GetOneRequest(c: Config, routes: Request -> Reply, inst: Instance, id: string, fuel: nat)
    ensures ProjectGet(c, routes, Some(inst), id, fuel).Some?
    ensures ProjectGet(c, routes, Some(inst), id, fuel).value.sent
            == [GetRequest(c, "org/" + inst.id + "/project/" + id, [], None, false)]
  {
  }

  /** The query across organizations starts by listing them. */
  lemma AllOrgsListFirst(c: Config, routes: Request -> Reply, fuel: nat)
    requires AllOrgsProjects(c, routes, fuel).Some?
    ensures AllOrgsProjects(c, routes, fuel).value.sent != []
    ensures AllOrgsProjects(c, routes, fuel).value.sent[0] == OrgsRequest(c)
  {
  }
}
