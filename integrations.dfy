/**
 * `IntegrationManager.all` and `JiraIssueManager.create` (snyk/managers.py):
 * the integrations of an organization, read off the keys of a v1 reply, and
 * the Jira issue created for a project's issue, dug out of a reply that
 * maps the issue id to a list of results.
 */
module Integrations {
  import opened Errors
  import opened Text
  import opened Json
  import opened Client
  import opened Managers

  // ---------------------------------------------------------------- IntegrationManager

  /** An integration: `{"name": x, "id": resp.json()[x]}` with its organization set. */
  datatype Integration = Integration(name: Json, id: Json, organization: Instance)

  /** Python's `xs[x]` on a list: an int (or bool) index, negative from the end. */
  function ListIndex(xs: seq<Json>, x: Json): (r: Result<Json>)
    ensures r.Ok? <==> (x.Int? || x.Bool?) && -|xs| <= NumberOf(x) < |xs|
    ensures r.Ok? && NumberOf(x) >= 0 ==> r.value == xs[NumberOf(x)]
    ensures r.Ok? && NumberOf(x) < 0 ==> r.value == xs[|xs| + NumberOf(x)]
    ensures !(x.Int? || x.Bool?) ==> r == Err(TypeError)
  {
    if !(x.Int? || x.Bool?) then Err(TypeError)
    else
      var i := NumberOf(x);
      if 0 <= i < |xs| then Ok(xs[i])
      else if -|xs| <= i < 0 then Ok(xs[|xs| + i])
      else Err(IndexError)
  }

  /** `(x, data[x])` for each `x` of a list, or the error of the first that cannot index it. */
  function ListPairs(xs: seq<Json>, from: seq<Json>): (r: Result<seq<(Json, Json)>>)
    ensures r.Ok? <==> forall i :: 0 <= i < |from| ==> ListIndex(xs, from[i]).Ok?
    ensures r.Ok? ==> |r.value| == |from|
                      && forall i :: 0 <= i < |from| ==> r.value[i] == (from[i], ListIndex(xs, from[i]).value)
  {
    if from == [] then Ok([])
    else
      var v :- ListIndex(xs, from[0]);
      var rest :- ListPairs(xs, from[1..]);
      Ok([(from[0], v)] + rest)
  }

  /** `d[k]` for the key at position `i` of a dict. */
  function MemberValue(ms: seq<Entry>, i: nat): (v: Json)
    requires i < |ms|
    ensures Lookup(ms, ms[i].key) == Some(v)
  {
    KeyAt(ms, i);
    Lookup(ms, ms[i].key).value
  }

  /** Each item the reply iterates over, paired with what indexing the reply by it gives. */
  function IntegrationPairs(data: Json): (r: Result<seq<(Json, Json)>>)
    ensures data.Object? ==> r.Ok? && |r.value| == |data.members|
    ensures (data.Null? || data.Bool? || data.Int?) ==> r == Err(TypeError)
  {
    match data
    case Object(ms) =>
      Ok(seq(|ms|, i requires 0 <= i < |ms| => (Str(ms[i].key), MemberValue(ms, i))))
    case Array(xs) => ListPairs(xs, xs)
    // a string yields characters, and a string cannot be indexed by a string
    case Str(s) => if s == "" then Ok([]) else Err(TypeError)
    case _ => Err(TypeError)
  }

  function IntegrationsRequest(c: Config, inst: Instance): Request {
    GetRequest(c, "org/" + inst.id + "/integrations", [], None, false)
  }

  /** `all()`: one v1 GET; an integration per pair, each with `organization` set to the instance. */
  function ListIntegrations(c: Config, routes: Request -> Reply, inst: Instance): (r: Exchange<seq<Integration>>)
    ensures r.sent == [IntegrationsRequest(c, inst)]
    ensures r.outcome.Ok? ==> forall i :: 0 <= i < |r.outcome.value| ==> r.outcome.value[i].organization == inst
  {
    var req := IntegrationsRequest(c, inst);
    var reply := Receive(routes(req));
    var outcome :=
      if reply.Err? then Err(reply.error)
      else
        match IntegrationPairs(reply.value)
        case Err(e) => Err(e)
        case Ok(pairs) => Ok(seq(|pairs|, i requires 0 <= i < |pairs| => Integration(pairs[i].0, pairs[i].1, inst)));
    Exchange(outcome, [req])
  }

  /** No key is repeated. */
  predicate DistinctKeys(ms: seq<Entry>) {
    forall i, j :: 0 <= i < j < |ms| ==> ms[i].key != ms[j].key
  }

  /** A dict reply gives one integration per key, in order: the key is its name and the value its id. */
  lemma IntegrationsOfDict(c: Config, routes: Request -> Reply, inst: Instance)
    requires var reply := routes(IntegrationsRequest(c, inst));
             reply.status < 400 && reply.body.Object? && DistinctKeys(reply.body.members)
    ensures var ms := routes(IntegrationsRequest(c, inst)).body.members;
            var r := ListIntegrations(c, routes, inst).outcome;
            && r.Ok? && |r.value| == |ms|
            && forall i :: 0 <= i < |ms| ==> r.value[i] == Integration(Str(ms[i].key), ms[i].value, inst)
  {
    var ms := routes(IntegrationsRequest(c, inst)).body.members;
    forall i | 0 <= i < |ms|
      ensures Lookup(ms, ms[i].key) == Some(ms[i].value)
    {
      LookupAt(ms, ms[i].key, i);
    }
  }

  /** A list reply works only when each item is an index into the list itself. */
  lemma IntegrationsOfList(data: seq<Json>)
    ensures IntegrationPairs(Array(data)).Ok? <==>
              forall i :: 0 <= i < |data| ==> (data[i].Int? || data[i].Bool?) && -|data| <= NumberOf(data[i]) < |data|
  {
  }

  // ---------------------------------------------------------------- JiraIssueManager

  /**
   * The "jiraIssue" of the first result listed under the issue id, when the
   * reply holds the id, the list is not empty and its first result holds
   * "jiraIssue"; SnykError otherwise, or whatever Python raises on the way.
   */
  function JiraIssueOf(data: Json, issueId: string): (r: Result<Json>)
    ensures data.Object? && !HasKey(data.members, issueId) ==> r == Err(SnykError(""))
    ensures r.Ok? ==> && data.Object?
                      && var results := Lookup(data.members, issueId);
                      && results.Some? && PyAt(results.value, 0).Ok?
                      && var first := PyAt(results.value, 0).value;
                      && first.Object? && Lookup(first.members, "jiraIssue") == Some(r.value)
  {
    var has :- PyIn(issueId, data);
    if !has then Err(SnykError(""))
    else
      var results :- PyIndex(data, issueId);
      var n :- PyLen(results);
      if n == 0 then Err(SnykError(""))
      else
        var first :- PyAt(results, 0);
        var hasJira :- PyIn("jiraIssue", first);
        if !hasJira then Err(SnykError(""))
        else PyIndex(first, "jiraIssue")
  }

  function JiraIssuePath(inst: Instance, issueId: string): (r: Result<string>)
    ensures r.Err? <==> inst.organization.None?
  {
    var org :- OrganizationId(inst);
    Ok("org/" + org + "/project/" + inst.id + "/issue/" + issueId + "/jira-issue")
  }

  /** `create(issue_id, fields)`: a v1 POST of {"fields": fields}, then the Jira issue of the reply. */
  function CreateJiraIssue(c: Config, routes: Request -> Reply, inst: Instance, issueId: string, fields: Json)
    : (r: Exchange<Json>)
    ensures inst.organization.None? ==> r == Exchange(Err(TypeError), [])
    ensures inst.organization.Some? ==>
              r.sent == [BodyRequest(c, POST, JiraIssuePath(inst, issueId).value, Some(Object([Entry("fields", fields)])), false)]
    ensures inst.organization.Some? ==>
              r.outcome == (var reply := Receive(routes(r.sent[0]));
                            if reply.Err? then Err(reply.error) else JiraIssueOf(reply.value, issueId))
  {
    match JiraIssuePath(inst, issueId)
    case Err(e) => Exchange(Err(e), [])
    case Ok(path) =>
      var req := BodyRequest(c, POST, path, Some(Object([Entry("fields", fields)])), false);
      var reply := Receive(routes(req));
      Exchange(if reply.Err? then Err(reply.error) else JiraIssueOf(reply.value, issueId), [req])
  }

  /** The reply the API gives: the issue id mapped to a list whose first result holds the Jira issue. */
  lemma JiraIssueFound(ms: seq<Entry>, issueId: string, fs: seq<Entry>, others: seq<Json>, jira: Json)
    requires Lookup(ms, issueId) == Some(Array([Object(fs)] + others))
    requires Lookup(fs, "jiraIssue") == Some(jira)
    ensures JiraIssueOf(Object(ms), issueId) == Ok(jira)
  {
  }

  /** An empty list of results raises SnykError. */
  lemma JiraIssueNoResults(ms: seq<Entry>, issueId: string)
    requires Lookup(ms, issueId) == Some(Array([]))
    ensures JiraIssueOf(Object(ms), issueId) == Err(SnykError(""))
  {
  }

  /** A first result without "jiraIssue" raises SnykError. */
  lemma JiraIssueMissing(ms: seq<Entry>, issueId: string, fs: seq<Entry>, others: seq<Json>)
    requires Lookup(ms, issueId) == Some(Array([Object(fs)] + others))
    requires !HasKey(fs, "jiraIssue")
    ensures JiraIssueOf(Object(ms), issueId) == Err(SnykError(""))
  {
  }

  // ---------------------------------------------------------------- the managers

  /** `IntegrationManager` for an organization. */
  class IntegrationManager {
    const client: SnykClient
    const instance: Instance

    constructor (client: SnykClient, instance: Instance)
      ensures this.client == client && this.instance == instance
    {
      this.client := client;
      this.instance := instance;
    }

    /** `all()`: the pairs, then an integration for each, then its organization set. */
    method All(tr: Transport) returns (r: Result<seq<Integration>>)
      modifies tr
      ensures r == ListIntegrations(client.Settings(), tr.routes, instance).outcome
      ensures tr.log == old(tr.log) + ListIntegrations(client.Settings(), tr.routes, instance).sent
    {
      var resp := client.Get(tr, "org/" + instance.id + "/integrations", null, None, false);
      if resp.Err? {
        return Err(resp.error);
      }
      var pairs := IntegrationPairs(resp.value);
      if pairs.Err? {
        return Err(pairs.error);
      }
      var integrations: seq<Integration> := [];
      for i := 0 to |pairs.value|
        invariant |integrations| == i
        invariant forall j :: 0 <= j < i ==> integrations[j] == Integration(pairs.value[j].0, pairs.value[j].1, instance)
      {
        integrations := integrations + [Integration(pairs.value[i].0, pairs.value[i].1, instance)];
      }
      assert integrations == seq(|pairs.value|, i requires 0 <= i < |pairs.value| =>
                                   Integration(pairs.value[i].0, pairs.value[i].1, instance));
      return Ok(integrations);
    }
  }

  /** `JiraIssueManager` for a project. */
  class JiraIssueManager {
    const client: SnykClient
    const instance: Instance

    constructor (client: SnykClient, instance: Instance)
      ensures this.client == client && this.instance == instance
    {
      this.client := client;
      this.instance := instance;
    }

    /** `create(issue_id, fields)`. */
    method Create(tr: Transport, issueId: string, fields: Json) returns (r: Result<Json>)
      modifies tr
      ensures r == CreateJiraIssue(client.Settings(), tr.routes, instance, issueId, fields).outcome
      ensures tr.log == old(tr.log) + CreateJiraIssue(client.Settings(), tr.routes, instance, issueId, fields).sent
    {
      var path := JiraIssuePath(instance, issueId);
      if path.Err? {
        return Err(path.error);
      }
      var resp := client.Post(tr, path.value, Object([Entry("fields", fields)]), false);
      if resp.Err? {
        return Err(resp.error);
      }
      r := JiraIssueOf(resp.value, issueId);
    }
  }
}
