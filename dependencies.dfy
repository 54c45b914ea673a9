/**
 * `DependencyManager.all(page)` (snyk/managers.py): the dependencies of an
 * organization, or of one project, fetched 1000 at a time by a v1 POST per
 * page, recursing while the reported total lies beyond the current page.
 */
module Dependencies {
  import opened Errors
  import opened Text
  import opened Json
  import opened Client
  import opened Managers

  const ResultsPerPage: int := 1000

  /**
   * The organization to ask and the filters to send: a project (an instance
   * with an organization) restricts the listing to itself.
   */
  function DependencyScope(inst: Instance): (string, Json) {
    if inst.organization.Some? then
      (inst.organization.value.id, Object([Entry("projects", Array([Str(inst.id)]))]))
    else
      (inst.id, EmptyObject)
  }

  function DependenciesPath(orgId: string, page: int): string {
    "org/" + orgId + "/dependencies?sortBy=dependency&order=asc&page=" + IntToString(page)
    + "&perPage=" + IntToString(ResultsPerPage)
  }

  /** The POST for `page`. */
  function DependenciesRequest(c: Config, inst: Instance, page: int): (r: Request)
    ensures r.verb == POST && r.query == []
    ensures r.body == Some(Object([Entry("filters", DependencyScope(inst).1)]))
  {
    var (orgId, filters) := DependencyScope(inst);
    BodyRequest(c, POST, DependenciesPath(orgId, page), Some(Object([Entry("filters", filters)])), false)
  }

  /** What one page holds: its items, and whether a later page is to be fetched. */
  datatype DepPage = DepPage(results: seq<Json>, more: bool)

  /**
   * A reply read in the source's order: its "total", then the items under
   * "results", then whether the total exceeds the pages read so far, a
   * comparison that only a number can answer.
   */
  function ReadDependencies(data: Json, page: int): (r: Result<DepPage>)
    ensures r.Ok? <==> && PyIndex(data, "total").Ok? && PyIndex(data, "results").Ok?
                       && PyIterate(PyIndex(data, "results").value).Ok?
                       && (PyIndex(data, "total").value.Int? || PyIndex(data, "total").value.Bool?)
    ensures r.Ok? ==> r.value.results == PyIterate(PyIndex(data, "results").value).value
    ensures r.Ok? ==> r.value.more == (NumberOf(PyIndex(data, "total").value) > page * ResultsPerPage)
    ensures PyIndex(data, "total").Err? ==> r == Err(PyIndex(data, "total").error)
  {
    var total :- PyIndex(data, "total");
    var holder :- PyIndex(data, "results");
    var results :- PyIterate(holder);
    if total.Int? || total.Bool? then Ok(DepPage(results, NumberOf(total) > page * ResultsPerPage))
    else Err(TypeError)
  }

  /** One call of `all(page)` before it recurses: the request sent and what its reply gives. */
  datatype DepStep = DepStep(req: Request, read: Result<DepPage>)

  function DependencyStep(c: Config, routes: Request -> Reply, inst: Instance, page: int): DepStep {
    var req := DependenciesRequest(c, inst, page);
    var reply := Receive(routes(req));
    DepStep(req, if reply.Err? then Err(reply.error) else ReadDependencies(reply.value, page))
  }

  function DepSteps(c: Config, routes: Request -> Reply, inst: Instance): int -> DepStep {
    page => DependencyStep(c, routes, inst, page)
  }

  /** `step` takes the steps of `all`; the recursion is stated over such a `step`. */
  ghost predicate DepStepsOf(step: int -> DepStep, c: Config, routes: Request -> Reply, inst: Instance) {
    forall p {:trigger DependencyStep(c, routes, inst, p)} :: step(p) == DependencyStep(c, routes, inst, p)
  }

  lemma DepStepsAre(c: Config, routes: Request -> Reply, inst: Instance)
    ensures DepStepsOf(DepSteps(c, routes, inst), c, routes, inst)
  {
  }

  /**
   * `all(page)` with its steps given by `step`, recursing at most `fuel`
   * times; None when the pages run on longer.
   */
  function DependencyPages(step: int -> DepStep, page: int, fuel: nat): Option<Exchange<seq<Json>>>
    decreases fuel
  {
    var s := step(page);
    match s.read
    case Err(e) => Some(Exchange(Err(e), [s.req]))
    case Ok(got) =>
      if !got.more then Some(Exchange(Ok(got.results), [s.req]))
      else if fuel == 0 then None
      else
        var w := DependencyPages(step, page + 1, fuel - 1);
        if w.None? then None
        else Some(Exchange(Prepend(got.results, w.value.outcome), [s.req] + w.value.sent))
  }

  /** `all(page)` for `inst`. */
  function AllDependencies(c: Config, routes: Request -> Reply, inst: Instance, page: int, fuel: nat)
    : Option<Exchange<seq<Json>>>
  {
    DependencyPages(DepSteps(c, routes, inst), page, fuel)
  }

  // ---------------------------------------------------------------- properties

  /** Every page reads, and reports the same `total`. */
  ghost predicate SteadyTotal(step: int -> DepStep, total: int) {
    forall p {:trigger step(p)} :: step(p).read.Ok? && step(p).read.value.more == (total > p * ResultsPerPage)
  }

  /** The last page a total of `total` results needs. */
  function LastPage(total: int): int {
    (total + ResultsPerPage - 1) / ResultsPerPage
  }

  /** A later page is asked for exactly while `page` is before the last page. */
  lemma MoreBeforeLast(total: int, p: int)
    ensures (total > p * ResultsPerPage) <==> p < LastPage(total)
  {
    var l := LastPage(total);
    var rem := (total + ResultsPerPage - 1) % ResultsPerPage;
    assert total + ResultsPerPage - 1 == ResultsPerPage * l + rem && 0 <= rem < ResultsPerPage;
    if p < l {
      assert p * ResultsPerPage + ResultsPerPage <= l * ResultsPerPage;
    } else {
      assert p * ResultsPerPage >= l * ResultsPerPage;
    }
  }

  /** How many requests a walk from `page` sends: down to the last page, and at least one. */
  function PagesFrom(total: int, page: int): nat {
    if page >= LastPage(total) then 1 else LastPage(total) - page + 1
  }

  /** The results of `n` pages from `page`, in page order. */
  function Gathered(step: int -> DepStep, page: int, n: nat): seq<Json>
    decreases n
  {
    if n == 0 then []
    else (if step(page).read.Ok? then step(page).read.value.results else []) + Gathered(step, page + 1, n - 1)
  }

  /**
   * With a steady total, the walk from `page` sends one request per page up
   * to the last, the i-th for page `page + i`, and returns the pages'
   * results concatenated in page order.
   */
  lemma {:induction false} DependencyPagesCount(step: int -> DepStep, page: int, fuel: nat, total: int)
    requires SteadyTotal(step, total)
    requires fuel >= LastPage(total) - page
    ensures DependencyPages(step, page, fuel).Some?
    ensures var w := DependencyPages(step, page, fuel).value;
            && |w.sent| == PagesFrom(total, page)
            && (forall i :: 0 <= i < |w.sent| ==> w.sent[i] == step(page + i).req)
            && w.outcome == Ok(Gathered(step, page, PagesFrom(total, page)))
    decreases fuel
  {
    var s := step(page);
    MoreBeforeLast(total, page);
    var got := s.read.value;
    if !got.more {
      assert Gathered(step, page + 1, 0) == [];
      assert got.results + [] == got.results;
    } else {
      DependencyPagesCount(step, page + 1, fuel - 1, total);
      var w := DependencyPages(step, page + 1, fuel - 1).value;
      assert PagesFrom(total, page) == PagesFrom(total, page + 1) + 1;
      var sent := [s.req] + w.sent;
      forall i | 0 <= i < |sent|
        ensures sent[i] == step(page + i).req
      {
        if i > 0 {
          assert sent[i] == w.sent[i - 1];
          assert page + 1 + (i - 1) == page + i;
        }
      }
    }
  }

  /** Each request of the walk is the POST for its page. */
  lemma DependencyRequests(c: Config, routes: Request -> Reply, inst: Instance, page: int, fuel: nat, total: int)
    requires SteadyTotal(DepSteps(c, routes, inst), total)
    requires fuel >= LastPage(total) - page
    ensures AllDependencies(c, routes, inst, page, fuel).Some?
    ensures var w := AllDependencies(c, routes, inst, page, fuel).value;
            && |w.sent| == PagesFrom(total, page)
            && forall i :: 0 <= i < |w.sent| ==> w.sent[i] == DependenciesRequest(c, inst, page + i)
  {
    DependencyPagesCount(DepSteps(c, routes, inst), page, fuel, total);
  }

  /** The request of a project asks its organization for that project alone. */
  lemma ProjectScope(c: Config, inst: Instance, page: int)
    requires inst.organization.Some?
    ensures DependenciesRequest(c, inst, page).url
            == c.apiUrl + "/" + c.cleanupPath(DependenciesPath(inst.organization.value.id, page))
    ensures DependenciesRequest(c, inst, page).body
            == Some(Object([Entry("filters", Object([Entry("projects", Array([Str(inst.id)]))]))]))
  {
  }

  // ---------------------------------------------------------------- the manager

  /** `DependencyManager` for an organization or a project. */
  class DependencyManager {
    const client: SnykClient
    const instance: Instance

    constructor (client: SnykClient, instance: Instance)
      ensures this.client == client && this.instance == instance
    {
      this.client := client;
      this.instance := instance;
    }

    /** The request for `page` and the reading of its reply. */
    method FetchPage(tr: Transport, page: int, ghost step: int -> DepStep) returns (s: DepStep)
      requires DepStepsOf(step, client.Settings(), tr.routes, instance)
      modifies tr
      ensures s == step(page)
      ensures tr.log == old(tr.log) + [s.req]
    {
      assert step(page) == DependencyStep(client.Settings(), tr.routes, instance, page);
      var (orgId, filters) := DependencyScope(instance);
      var path := DependenciesPath(orgId, page);
      var body := Object([Entry("filters", filters)]);
      var req := BodyRequest(client.Settings(), POST, path, Some(body), false);
      var resp := client.Post(tr, path, body, false);
      if resp.Err? {
        return DepStep(req, Err(resp.error));
      }
      return DepStep(req, ReadDependencies(resp.value, page));
    }

    /** `all(page)` over the steps `step`. */
    method Walk(tr: Transport, page: int, ghost step: int -> DepStep, ghost fuel: nat) returns (r: Result<seq<Json>>)
      requires DepStepsOf(step, client.Settings(), tr.routes, instance)
      requires DependencyPages(step, page, fuel).Some?
      modifies tr
      ensures r == DependencyPages(step, page, fuel).value.outcome
      ensures tr.log == old(tr.log) + DependencyPages(step, page, fuel).value.sent
      decreases fuel
    {
      var s := FetchPage(tr, page, step);
      if s.read.Err? {
        return Err(s.read.error);
      }
      var got := s.read.value;
      if !got.more {
        return Ok(got.results);
      }
      var rest := Walk(tr, page + 1, step, fuel - 1);
      assert tr.log == old(tr.log) + ([s.req] + DependencyPages(step, page + 1, fuel - 1).value.sent);
      r := Prepend(got.results, rest);
    }

    /** `all(page)`. */
    method All(tr: Transport, page: int, ghost fuel: nat) returns (r: Result<seq<Json>>)
      requires AllDependencies(client.Settings(), tr.routes, instance, page, fuel).Some?
      modifies tr
      ensures r == AllDependencies(client.Settings(), tr.routes, instance, page, fuel).value.outcome
      ensures tr.log == old(tr.log) + AllDependencies(client.Settings(), tr.routes, instance, page, fuel).value.sent
    {
      DepStepsAre(client.Settings(), tr.routes, instance);
      r := Walk(tr, page, DepSteps(client.Settings(), tr.routes, instance), fuel);
    }
  }
}
