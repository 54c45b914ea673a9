# pysnyk client and managers, modelled in Dafny

This project models the core of pysnyk, the Python client for the Snyk API, and proves properties of that model. It covers two files.

- **`SnykClient`** (`snyk/client.py`):
  - base-URL normalisation in the constructor;
  - the shaping of a GET: the version parameter, booleans lowered to `"true"`/`"false"`, an absolute paginated URL used verbatim;
  - the REST version parameter of POST, PUT and DELETE;
  - the cursor walk of `get_rest_pages` over JSON:API `links.next`/`links.self`.
- **The managers** (`snyk/managers.py`):
  - the generic `get`/`first`/`filter` of `Manager`, and the `DictManager` and `SingletonManager` variants;
  - the closed `factory` table;
  - `OrganizationManager.all`;
  - `ProjectManager`: the REST-to-v1 normaliser, tag validation, query building and recursive paging in `_query`, and `all`/`filter`/`get`;
  - the total-count paging of `DependencyManager.all`;
  - the whitelisted bodies of `SettingManager.update`, `IssueSetManager.filter` and `IssueSetAggregatedManager.filter`;
  - the `from` → `fromPackages` rename of `_convert_reserved_words`;
  - `IntegrationManager.all` and `JiraIssueManager.create`;
  - the organization guard of `CollectionManager`.

## How the model is built

- **JSON.** A `Json` datatype holds null, bool, int, string, array and object. An object is an ordered list of entries, so Python's dict insertion order is kept. The model relies on that order for `DictManager.first` and for keys that pop-and-set moves.
- **Python semantics.** The Python operations the code relies on are written out in module `Json`: truthiness, `==`, `in`, `d[k]`, `d.get`, `len` and iteration. Each one raises the error Python raises on the wrong kind of value.
- **Errors.** Exceptions are values of `Errors.Error`:
  - `SnykHTTPError` is `HttpError(status)`;
  - `SnykNotFoundError`, `SnykNotImplementedError` and `SnykError` have their own constructors;
  - `KeyError`, `IndexError` and `TypeError` cover Python's own exceptions.
- **The network.** The network is a `Transport` object: a fixed function from request to reply, plus the log of the requests sent so far.
- **Methods and specification functions.** Every state-changing operation is a method on a class (`SnykClient`, `ProjectManager`, …). It is proved equal to a specification function that returns an `Exchange`: the outcome, and the exact requests sent, in order. The properties are proved as lemmas about those functions.
- **Recursion without a bound.** A recursion that the source does not bound has a ghost `fuel` parameter: the page walks, `_query` and `DependencyManager.all`. The specification is `None` when the walk runs longer than the fuel allows.

## Model

| member | source | states |
|---|---|---|
| Json.PutKeepsDict | snyk/managers.py:1018 | `d[key] = v` on a dict without repeated keys leaves it without repeated keys |
| Json.RemoveKeepsDict | snyk/managers.py:1023 | `del d[key]` on a dict without repeated keys leaves it without repeated keys |
| Client.StripTrailingSlashes | snyk/client.py:69-73 | the result has no trailing `/`, is a prefix of the input, and everything removed is `/` |
| Client.BaseUrl | snyk/client.py:55-56 | no URL or an empty one gives the default; a given URL without a trailing `/` is kept as is; otherwise only trailing slashes are removed |
| Client.SnykClient.constructor | snyk/client.py:41-76 | the v1 and REST base URLs are the normalised arguments; the version and the path cleanup are kept |
| ClientProperties.ClientUrls | snyk/client.py:37-73 | the default v1 URL, the fallback for an empty REST URL, a custom URL kept, and a custom URL with trailing slashes stripped |
| Client.LowerBools | snyk/client.py:232-234 | the same parameters in the same order; each boolean value becomes its lowercase string and other values are kept |
| Client.LowerBoolsInPlace | snyk/client.py:232-234 | the caller's params dict after the loop holds `LowerBools` of its old entries |
| Client.Receive | snyk/client.py:149-151 | a reply with status 400 or more raises `HttpError(status)`; any other reply gives its JSON body |
| Client.VersionValue | snyk/client.py:229 | reference definition, no ensures: `version or self.version`, the value a REST `get` stores under `version`; proved about in `ClientProperties.VersionInsertedOnlyWhenAbsent` |
| Client.RestParams | snyk/client.py:227-234 | reference definition, no ensures: the params of a REST `get` after the version is added and the booleans lowered; proved about in `ClientProperties.VersionInsertedOnlyWhenAbsent` and `BooleansLowered` |
| Client.ParamsAfterGet | snyk/client.py:222-234 | reference definition, no ensures: the caller's params dict after `get`; proved about in `ClientProperties.CallerParams` and used in the ensures of `Client.SnykClient.Get` |
| Client.VersionQuery | snyk/client.py:119-123 | reference definition, no ensures: the `{"version": v}` query of a REST `post`, `put` or `delete`; proved about in `ClientProperties.BodyRequestVersion` |
| Client.JsonArg | snyk/client.py:91-100 | reference definition, no ensures: a falsy body is not passed to `requests`; used by `Client.BodyRequest` and `Client.SnykClient.Post` and `Put` |
| Client.GetRequest | snyk/client.py:217-245 | reference definition, no ensures: the request `get` sends; its properties are proved in `ClientProperties.VersionInsertedOnlyWhenAbsent`, `BooleansLowered` and `GetUrlChoice` |
| Client.BodyRequest | snyk/client.py:119-123 | reference definition, no ensures: the request `post`, `put` or `delete` sends; its properties are proved in `ClientProperties.BodyRequestVersion` |
| Client.FirstPageItems | snyk/client.py:308-310 | reference definition, no ensures: `page_data["data"]` of the first page; proved about in `ClientProperties.FirstPageWithoutData` |
| Client.NextLink | snyk/client.py:312-324 | reference definition, no ensures: the link the loop follows, or none when it stops; proved about in `ClientProperties.NoNextStops` and `SelfLinkStops` |
| Client.LaterPageItems | snyk/client.py:335-342 | reference definition, no ensures: what a later page adds, or none when it ends the walk; proved about in `ClientProperties.EmptyLaterPageEnds` and `ContinuesIffData` |
| Client.Follow | snyk/client.py:312-349 | reference definition, no ensures: the `while` loop of the walk as a recursion on fuel; proved about in `ClientProperties.ChainWalk`, `FollowFuel`, `FollowSendsLittle` and `FollowErrorDiscards` |
| Client.RestPages | snyk/client.py:300-349 | reference definition, no ensures: the whole `get_rest_pages` walk; `Client.SnykClient.GetRestPages` is proved to compute it and `ClientProperties.ThreePagesOfTen` is an instance |
| Client.Transport.constructor | snyk/client.py:78-105 | a transport starts with an empty log |
| Client.Transport.Send | snyk/client.py:78-105 | appends the request to the log and returns the route's reply |
| Client.SnykClient.Get | snyk/client.py:201-262 | sends exactly one GET, shaped from the old params; returns the reply as `Receive` reads it; a non-empty caller dict is left holding the version added and the booleans lowered |
| Client.SnykClient.Post | snyk/client.py:107-153 | sends exactly one POST with the body, to the v1 or REST base, and returns the reply as `Receive` reads it |
| Client.SnykClient.Put | snyk/client.py:155-199 | sends exactly one PUT with the body, and returns the reply as `Receive` reads it |
| Client.SnykClient.Delete | snyk/client.py:264-298 | sends exactly one DELETE with no body, and returns the reply as `Receive` reads it |
| Client.Fetched | snyk/client.py:333-345 | after a later page is fetched, the walk either ends having sent that one request and adding nothing, or goes on with that page's non-empty data |
| Client.NextTurn | snyk/client.py:312-345 | one pass of the loop: ending adds no items and sends at most the one request |
| Client.SnykClient.TakeTurn | snyk/client.py:312-345 | takes the loop pass the walk specifies; the log grows by exactly what that pass sends |
| Client.SnykClient.FollowLinks | snyk/client.py:312-349 | the loop returns the data collected so far followed by the rest of the walk; the log grows by the walk's requests |
| Client.SnykClient.GetRestPages | snyk/client.py:300-349 | the result and the requests sent are those of the page walk from the first GET of `path`; the caller's params end as a REST GET leaves them |
| ClientProperties.ChainWalk | snyk/client.py:312-349 | along a chain of linked pages ending in any outcome, the walk gives every page's data concatenated in fetch order ahead of that outcome (so an error outcome is the walk's outcome), and sends exactly one request per link followed by the last turn's requests |
| ClientProperties.FollowFuel | snyk/client.py:312-349 | a walk that ends within some fuel ends the same way with more fuel |
| ClientProperties.FollowSendsLittle | snyk/client.py:312-349 | a walk with fuel `n` sends at most `n + 1` requests |
| ClientProperties.FollowErrorDiscards | snyk/client.py:300-349 | when the last turn of a chain of pages raises, `get_rest_pages` raises that error: the data of the first and every later page is lost, and the first GET and every request of the chain were sent |
| ClientProperties.NoNextStops | snyk/client.py:312 | a page with no `links.next`, or a falsy one, ends the walk with no further fetch and no items |
| ClientProperties.SelfLinkStops | snyk/client.py:316-322 | a `next` link equal to the `self` link ends the walk with no further fetch |
| ClientProperties.EmptyLaterPageEnds | snyk/client.py:335-342 | a later page without `data`, or with empty `data`, ends the walk after exactly that fetch, adding nothing |
| ClientProperties.FirstPageWithoutData | snyk/client.py:308-310 | a first page without `data` raises `KeyError("data")` after the single first request |
| ClientProperties.ContinuesIffData | snyk/client.py:333-345 | after following a link, the walk continues exactly when the fetched page is ok and has non-empty `data` |
| ClientProperties.ThreePagesOfTen | snyk/client.py:300-349 | three linked pages of ten items give the thirty items in order, with three requests |
| ClientProperties.VersionInsertedOnlyWhenAbsent | snyk/client.py:228-229 | a REST GET appends one `version` parameter exactly when neither the params nor the path mention `version`; the other names are kept in order |
| ClientProperties.BooleansLowered | snyk/client.py:232-234 | no REST query value is a boolean; each boolean becomes `"true"`/`"false"`, and every other value is unchanged |
| ClientProperties.GetUrlChoice | snyk/client.py:236-245 | a REST path containing `snyk.io` is the URL itself, with no params; any other REST path is appended to the REST base, with params; a v1 path is appended to the v1 base with the caller's params |
| ClientProperties.CallerParams | snyk/client.py:222-234 | the caller's dict is unchanged when empty or in a v1 call; otherwise, for a relative REST path, it ends equal to the query sent |
| ClientProperties.BodyRequestVersion | snyk/client.py:119-123 | POST/PUT/DELETE carry a query exactly when the call is REST and the client has a version, and then it is `{"version": v}`; the URL is the chosen base plus the cleaned path |
| Managers.OrganizationId | snyk/managers.py:1150-1153 | a scoped path needs `instance.organization.id`; an instance without one raises |
| Managers.Attr | snyk/managers.py:40-44 | `getattr(x, key)` succeeds exactly when the record has the attribute, giving its value, and raises otherwise |
| Managers.FindById | snyk/managers.py:28-32 | `get(id)` gives an element of `all()` whose id equals `id`; it raises `NotFound` exactly when every element has an id and none matches |
| Managers.FindByIdFirst | snyk/managers.py:28-32 | `get(id)` gives the first match: the element at the first index whose id matches |
| Managers.First | snyk/managers.py:34-38 | `first()` is `all()[0]`, or `NotFound` exactly when the list is empty |
| Managers.Keep | snyk/managers.py:42-43 | one comprehension succeeds exactly when every item has the attribute, and never grows the list |
| Managers.Selected | snyk/managers.py:40-44 | no keyword arguments give the input unchanged; the filtered list is never longer than the input |
| Managers.FilterByKwargs | snyk/managers.py:40-44 | the loop over the keyword arguments computes `Selected` |
| Managers.WhereMembers | snyk/managers.py:40-44 | the reference filter keeps exactly the items of the input that match every keyword argument |
| Managers.KeepIsWhere | snyk/managers.py:42-43 | one comprehension is the order-preserving subsequence of items matching that one argument |
| Managers.WhereSplit | snyk/managers.py:41-43 | filtering by one argument and then by the rest equals filtering by all of them |
| Managers.SelectedIsWhere | snyk/managers.py:40-44 | when every item has the attributes, `_filter_by_kwargs` is the order-preserving subsequence matching every argument |
| Managers.WhereAll | snyk/managers.py:40-41 | with no arguments the reference filter returns its input |
| Managers.DictGet | snyk/managers.py:865-869 | on a dict, `get(k)` succeeds exactly when `k` is a key, giving its value; a missing key raises `NotFound` |
| Managers.DictFilter | snyk/managers.py:871-872 | `filter` always raises `NotImplemented` |
| Managers.DictFirst | snyk/managers.py:874-878 | `first()` is the first key and its value; an empty dict raises `NotFound` |
| Managers.SingletonFirst | snyk/managers.py:886-887 | always raises `NotImplemented` |
| Managers.SingletonGet | snyk/managers.py:889-890 | always raises `NotImplemented` |
| Managers.SingletonFilter | snyk/managers.py:892-893 | always raises `NotImplemented` |
| Managers.Factory | snyk/managers.py:50-91 | a manager it returns is registered under the string, or under the class name; a failure is a `SnykError` |
| Managers.RegisteredKey | snyk/managers.py:61-88 | a registered key is the key of the manager it maps to |
| Managers.FactoryRoundTrip | snyk/managers.py:56-89 | every manager kind is found again from its key, whether the key is passed as a string or as a class name |
| Managers.FactoryClosed | snyk/managers.py:88-91 | a key outside the table raises |
| ProjectFormat.Walk | snyk/managers.py:939-957 | the nested `.get` chains succeed exactly when every step lands on a dict; each of the seven dicts it gives is the `.get(..., {})` chain of the project that the source reads |
| ProjectFormat.V1Format | snyk/managers.py:930-987 | a converted project is a dict |
| ProjectFormat.V1FormatTotal | snyk/managers.py:939-957 | the conversion fails only when a value on a `.get` chain is not a dict; missing keys never make it fail |
| ProjectFormat.V1FormatKeys | snyk/managers.py:958-987 | the converted record has exactly the seventeen v1 keys, in order |
| ProjectFormat.V1FormatFields | snyk/managers.py:959-978 | `name` and `id` are copied; `isMonitored` is true iff the status is `"active"`; `branch` equals `targetReference`; `_tags` defaults to `[]` |
| ProjectFormat.V1FormatAttributes | snyk/managers.py:939-966 | `created`, `origin`, `type` and `readOnly` (from `read_only`) are the attributes, `testFrequency` the recurring tests' `frequency` and `lastTestedDate` the counts' `updated_at`; each is null when absent |
| ProjectFormat.V1FormatRelations | snyk/managers.py:943-987 | `remoteRepoUrl` is the target's `url`, `imageCluster` the integration data's `cluster`, `importingUserId` and `owningUserId` the importer's and owner's `id`; each is null when absent |
| ProjectFormat.V1Values | snyk/managers.py:958-987 | reference definition, no ensures: the seventeen values of the v1 record, in key order; each is stated in `V1FormatFields`, `V1FormatAttributes`, `V1FormatRelations` and `V1FormatCounts` |
| ProjectFormat.V1FormatCounts | snyk/managers.py:968-973 | each of the four severity counts is the reported count or 0 |
| ProjectFormat.V1FormatLacks | snyk/managers.py:958-987 | the converted record has no `attributes`, `organization` or `totalDependencies` key |
| ProjectFormat.V1FormatDict | snyk/managers.py:958-987 | the converted record is a dict with no key repeated |
| Projects.TagsParam | snyk/managers.py:996-1001 | the tags are accepted exactly when each has just the keys `key` and `value`; the parameter is the comma-join of `key:value` in list order; otherwise `SnykError` |
| Projects.CheckTags | snyk/managers.py:997-1001 | the validation loop computes `TagsParam` |
| Projects.QueryParams | snyk/managers.py:990-1006 | the params are built exactly when there are no tags or all are valid; otherwise `SnykError` |
| Projects.ProjectsOf | snyk/managers.py:1016-1028 | reference definition, no ensures: the converted projects of a page's items, in order, or the first item's error; computed by `Projects.ProcessItems`; proved about in `Projects.ProjectsOfEach` and `ProjectProperties.V1ProjectShape` |
| Projects.ProjectsOfEach | snyk/managers.py:1016-1028 | a page's projects exist exactly when every item converts, and then the i-th project is the i-th item's converted project (`convert` stands for `V1Project` of the page's organization) |
| Projects.ProcessItems | snyk/managers.py:1016-1028 | the loop over a page's items converts each one, adds its organization and default total, or raises the first item's error |
| Projects.MoveAttributeTags | snyk/managers.py:1019-1025 | reference definition, no ensures: the `try` that moves `attributes.tags` to `attributes._tags`, swallowing the `KeyError`; proved about in `ProjectProperties.AttributeTagsMoved` and `AttributeTagsAbsent` |
| Projects.WithOrganization | snyk/managers.py:1018-1027 | reference definition, no ensures: what `_query` adds to a rewritten project: its organization, the tag move and a default total; proved about in `ProjectProperties.WithOrganizationShape` |
| Projects.V1Project | snyk/managers.py:1017-1027 | reference definition, no ensures: one project of a page: rewritten and then completed by `WithOrganization`; proved about in `ProjectProperties.V1ProjectShape` |
| Projects.ReadReply | snyk/managers.py:1014-1033 | reading a page gives its converted projects and the `next` link it carries |
| Projects.ReadPage | snyk/managers.py:1014-1033 | reference definition, no ensures: a page's converted projects and its `next` link; computed by `Projects.ReadReply`; proved about in `ProjectProperties.V1ProjectShape` |
| Projects.Pages | snyk/managers.py:1008-1033 | reference definition, no ensures: the recursion of `_query` on fuel; proved about in `ProjectProperties.PagesCycle`, `PagesFuel` and `PagesSent` |
| Projects.QueryPages | snyk/managers.py:989-1036 | reference definition, no ensures: `_query` for an organization; proved about in `ProjectProperties.QuerySent` and `FirstRequest`, and computed by `Projects.ProjectManager.QueryOrg` |
| Projects.AcrossOrgs | snyk/managers.py:1037-1039 | reference definition, no ensures: the query of each organization in turn, concatenated; proved about in `Projects.AcrossOrgsOutcome` |
| Projects.OrgProjects | snyk/managers.py:1039 | reference definition, no ensures: `org.projects.all()` for one organization, as `QueryPages` with no tags and no link; used by `AllOrgsProjects` |
| Projects.AllOrgsProjects | snyk/managers.py:1037-1039 | reference definition, no ensures: the unscoped `_query`: list the organizations, then query each; proved about in `ProjectProperties.AllOrgsListFirst` and `GetSearchesAll`, and computed by `Projects.ProjectManager.QueryAllOrgs` |
| Projects.ProjectQuery | snyk/managers.py:989-1040 | reference definition, no ensures: `_query` scoped to an instance or to none; proved about in `ProjectProperties.FilterIsWhere`, `GetSearchesAll` and `AllOrgsListFirst`, and computed by `Projects.ProjectManager.Query` |
| Projects.ProjectFilter | snyk/managers.py:1045-1049 | reference definition, no ensures: `filter(tags, **kwargs)`; proved about in `ProjectProperties.FilterIsWhere` |
| Projects.ProjectRecord | snyk/managers.py:1055-1065 | reference definition, no ensures: the record `get` builds; proved about in `ProjectProperties.ProjectRecordShape` |
| Projects.ProjectGet | snyk/managers.py:1051-1070 | reference definition, no ensures: `get(id)`; proved about in `ProjectProperties.GetSearchesAll` and `GetOneRequest`, and computed by `Projects.ProjectManager.Get` |
| Projects.Answer | snyk/managers.py:1012-1033 | a page that ends the query sends only its own request; a page that goes on keeps that request |
| Projects.QueryStep | snyk/managers.py:989-1033 | rejected tags end the query with `SnykError` before any request; otherwise ending a query sends at most one request |
| Projects.Answered | snyk/managers.py:1012-1033 | reading a reply, with the loop over its projects, computes `Answer` |
| Projects.OrgRecords | snyk/managers.py:898-902 | a reply without `orgs` gives no organizations; a list under `orgs` gives its records |
| Projects.OrgInstance | snyk/managers.py:902 | a record becomes an organization exactly when it has a string `id`, keeping the record |
| Projects.OrgInstances | snyk/managers.py:901-902 | every record converts, one organization per record in order, or the list fails |
| Projects.Organizations | snyk/managers.py:897-905 | `organizations.all()` sends exactly the one GET of `orgs` |
| Projects.AcrossOrgsOutcome | snyk/managers.py:1037-1039 | the unscoped query succeeds only when each organization's query does; a failure is some organization's failure |
| Projects.MoveTags | snyk/managers.py:1059-1063 | `tags` moves to `_tags` when present and everything else stays |
| Projects.DefaultTotal | snyk/managers.py:1064-1065 | a missing or null `totalDependencies` becomes 0; any other value is kept |
| Projects.OrganizationManager.constructor | snyk/managers.py:19-22 | the manager keeps its client |
| Projects.OrganizationManager.All | snyk/managers.py:897-905 | returns and sends exactly what `Organizations` specifies |
| Projects.ProjectManager.constructor | snyk/managers.py:19-22 | the manager keeps its client and instance |
| Projects.ProjectManager.QueryPage | snyk/managers.py:990-1033 | one call of `_query` before it recurses: the step the query specifies, logging its request |
| Projects.ProjectManager.QueryOrg | snyk/managers.py:989-1036 | the recursive `_query` of an organization returns and sends exactly what the page sequence specifies |
| Projects.ProjectManager.QueryAllOrgs | snyk/managers.py:1037-1039 | with no instance, lists the organizations and then queries each |
| Projects.ProjectManager.QueryEach | snyk/managers.py:1038-1039 | the projects of each organization, concatenated in organization order |
| Projects.ProjectManager.Query | snyk/managers.py:989-1040 | `_query(tags, next_url)` returns and sends exactly what `ProjectQuery` specifies |
| Projects.ProjectManager.All | snyk/managers.py:1042-1043 | `all()` is `_query()` with no tags and no link |
| Projects.ProjectManager.Filter | snyk/managers.py:1045-1049 | `filter(tags, **kwargs)` filters the tag query by the keyword arguments |
| Projects.ProjectManager.Get | snyk/managers.py:1051-1070 | `get(id)` returns and sends exactly what `ProjectGet` specifies |
| ProjectProperties.QueryParamsShape | snyk/managers.py:990-1006 | the limit is 100; `tags` is present exactly when tags are given and holds their join; `expand` and `meta.latest_issue_counts` are present exactly on the first page |
| ProjectProperties.FalsyNextRestarts | snyk/managers.py:993-1012 | a falsy `next_url` queries exactly as no link does |
| ProjectProperties.PagesCycle | snyk/managers.py:1031-1033 | a page whose `next` leads back to the same step never ends the recursion |
| ProjectProperties.NullNextNeverEnds | snyk/managers.py:1031-1033 | a first page whose `links.next` is present but falsy (such as null) restarts at the first page forever |
| ProjectProperties.PagesFuel | snyk/managers.py:1031-1033 | a query that ends within some fuel ends the same way with more fuel |
| ProjectProperties.PagesSent | snyk/managers.py:1008-1033 | the query sends only GETs, at most one per level of recursion |
| ProjectProperties.QuerySent | snyk/managers.py:1008-1033 | the query of an organization sends only GETs, at most `fuel + 1` of them |
| ProjectProperties.RejectedTagsSendNothing | snyk/managers.py:996-999 | invalid tags raise `SnykError` before any request is sent |
| ProjectProperties.FirstRequest | snyk/managers.py:993-1012 | the first request is the REST GET of `/orgs/<id>/projects` with the first-page params |
| ProjectProperties.AttributeTagsMoved | snyk/managers.py:1019-1023 | attributes holding `tags` have it moved to `_tags`, and every other key, inside the attributes or beside them, keeps its value |
| ProjectProperties.AttributeTagsAbsent | snyk/managers.py:1019-1025 | with no `attributes`, or attributes without `tags`, the `KeyError` is swallowed and the record is unchanged |
| ProjectProperties.WithOrganizationShape | snyk/managers.py:1018-1027 | on a record without `attributes`, `organization` or `totalDependencies`, the loop only appends the organization and a total of 0 |
| ProjectProperties.V1ProjectShape | snyk/managers.py:1017-1027 | each item converts exactly when it is shaped; the stored project is the v1 record plus the organization and `totalDependencies` 0, because the tag move never applies |
| ProjectProperties.ProjectRecordShape | snyk/managers.py:1055-1065 | `get` on a scoped manager needs a dict; sets `organization`, moves `tags` to `_tags`, defaults a missing or null total to 0, and leaves every other key alone |
| ProjectProperties.FilterIsWhere | snyk/managers.py:1045-1049 | when every project has the attributes, `filter` is the order-preserving subsequence of the query's projects matching every argument, with the same requests |
| ProjectProperties.GetSearchesAll | snyk/managers.py:1069-1070 | with no instance, `get(id)` sends what `all()` sends and gives a project of it with that id; it raises `NotFound` when none has it |
| ProjectProperties.GetOneRequest | snyk/managers.py:1052-1054 | with an instance, `get(id)` sends exactly the one v1 GET of `org/<org>/project/<id>` |
| ProjectProperties.AllOrgsListFirst | snyk/managers.py:1037-1038 | the unscoped query starts by listing the organizations |
| Bodies.Whitelist | snyk/managers.py:1170-1172 | the copying loop computes `Whitelisted` |
| Bodies.WhitelistedOthers | snyk/managers.py:1170-1172 | a key that no accepted name is renamed to keeps its value from the base |
| Bodies.WhitelistedPicked | snyk/managers.py:1170-1172 | under a name's renamed key, the body holds the argument when it is picked and the base value otherwise |
| Bodies.WhitelistedKeys | snyk/managers.py:1278-1280 | overriding names the base already holds leaves its keys and their order unchanged |
| Bodies.WhitelistedIgnores | snyk/managers.py:1170-1172 | arguments outside the accepted names do not affect the body |
| Bodies.Whitelisted | snyk/managers.py:1170-1172 | reference definition, no ensures: the base after copying in each picked argument; stated in `Bodies.WhitelistedOthers`, `WhitelistedPicked`, `WhitelistedKeys` and `WhitelistedIgnores` |
| Settings.SettingsPath | snyk/managers.py:1150-1153 | the path is `org/<org>/project/<id>/settings`; a project without an organization raises |
| Settings.UpdateSettings | snyk/managers.py:1149-1174 | `update` sends one v1 PUT of the body; a reply that is not ok raises its `HttpError`, any other gives True; nothing is sent without an organization |
| Settings.SettingsBodyContents | snyk/managers.py:1154-1172 | the body holds each accepted setting that was passed, under its camel-case name with the value passed, and no other key |
| Settings.SettingsIgnoreOthers | snyk/managers.py:1170-1172 | arguments that are not settings leave the body unchanged |
| Settings.SettingsBody | snyk/managers.py:1154-1172 | reference definition, no ensures: the body of `update(**kwargs)`; stated in `Settings.SettingsBodyContents` and `SettingsIgnoreOthers` |
| Settings.SettingManager.constructor | snyk/managers.py:19-22 | the manager keeps its client, project and key renaming |
| Settings.SettingManager.Update | snyk/managers.py:1149-1174 | returns and sends exactly what `UpdateSettings` specifies |
| Issues.ProjectIssuesPath | snyk/managers.py:1268-1271 | `org/<org>/project/<id>/<leaf>`; a project without an organization raises |
| Issues.RenameFrom | snyk/managers.py:1258-1261 | a dict item with `from` loses it and gets `fromPackages` with its value, and every other key is unchanged; a dict without `from` is unchanged |
| Issues.RenameAll | snyk/managers.py:1257-1261 | each item of the list is renamed and the list keeps its length, or the rename fails with `TypeError` |
| Issues.FirstContaining | snyk/managers.py:1257-1258 | the first key of a dict in which `"from"` occurs, when one exists |
| Issues.ConvertList | snyk/managers.py:1257-1261 | a list has its items renamed; a dict is unchanged unless one of its keys contains `from`, which raises |
| Issues.ConvertKey | snyk/managers.py:1256-1261 | data without `issues` is unchanged |
| Issues.RenameItems | snyk/managers.py:1257-1261 | the loop over a list computes `RenameAll` |
| Issues.ConvertKeyStep | snyk/managers.py:1256-1261 | one key of the conversion computes `ConvertKey` |
| Issues.ConvertReservedWords | snyk/managers.py:1254-1262 | the loop over `vulnerabilities` and `licenses` computes `Converted` |
| Issues.RenameAllClean | snyk/managers.py:1257-1261 | after the rename no item holds `from`, and renaming again changes nothing |
| Issues.ConvertListTwice | snyk/managers.py:1257-1261 | converting a converted list changes nothing |
| Issues.ConvertKeySettles | snyk/managers.py:1256-1261 | after converting a key once, converting that key again changes nothing |
| Issues.ConvertKeyKeepsSettled | snyk/managers.py:1255-1261 | converting another key keeps a converted key converted |
| Issues.ConvertedTwice | snyk/managers.py:1254-1262 | `_convert_reserved_words` is idempotent |
| Issues.ConvertKeys | snyk/managers.py:1255-1262 | reference definition, no ensures: the outer loop of `_convert_reserved_words` over the keys still to visit; proved about in `Issues.ConvertedTwice` |
| Issues.Converted | snyk/managers.py:1254-1262 | reference definition, no ensures: `_convert_reserved_words(data)`; proved idempotent in `Issues.ConvertedTwice` and computed by `Issues.ConvertReservedWords` |
| Issues.ConvertKeyChanges | snyk/managers.py:1256-1261 | only `data["issues"][key]` changes: every other top-level key and every other issue kind is unchanged |
| Issues.IssueSetFilter | snyk/managers.py:1267-1283 | `filter` sends one v1 POST of `{"filters": ...}`; a reply that is not ok raises its `HttpError`, any other is returned after `Converted`; nothing is sent without an organization |
| Issues.IssueFiltersContents | snyk/managers.py:1272-1280 | the filters have exactly the four default keys, in order; each holds the argument when it is truthy and the default otherwise |
| Issues.IssueFilters | snyk/managers.py:1272-1280 | reference definition, no ensures: the filters of `IssueSetManager.filter`; stated in `Issues.IssueFiltersContents` |
| Issues.AggregatedFilter | snyk/managers.py:1290-1319 | `filter` sends one v1 POST of the body to `aggregated-issues` and returns the reply; nothing is sent without an organization |
| Issues.AggregatedFiltersContents | snyk/managers.py:1295-1312 | each of the six filter names holds the argument when it is passed and the default otherwise; no other key appears |
| Issues.AggregatedBodyContents | snyk/managers.py:1307-1316 | the body holds the filters and the two optional fields when passed, and nothing else |
| Issues.AggregatedFilters | snyk/managers.py:1295-1312 | reference definition, no ensures: the filters of `IssueSetAggregatedManager.filter`; stated in `Issues.AggregatedFiltersContents` |
| Issues.AggregatedBody | snyk/managers.py:1307-1316 | reference definition, no ensures: the body of `IssueSetAggregatedManager.filter`; stated in `Issues.AggregatedBodyContents` |
| Issues.IssueSetManager.constructor | snyk/managers.py:19-22 | the manager keeps its client and project |
| Issues.IssueSetManager.Filter | snyk/managers.py:1267-1283 | returns and sends exactly what `IssueSetFilter` specifies |
| Issues.IssueSetManager.All | snyk/managers.py:1264-1265 | `all()` is `filter()` with no arguments |
| Issues.IssueSetAggregatedManager.constructor | snyk/managers.py:19-22 | the manager keeps its client and project |
| Issues.IssueSetAggregatedManager.Filter | snyk/managers.py:1290-1319 | returns and sends exactly what `AggregatedFilter` specifies |
| Issues.IssueSetAggregatedManager.All | snyk/managers.py:1287-1288 | `all()` is `filter()` with no arguments |
| Dependencies.DependenciesRequest | snyk/managers.py:1104-1117 | each page is a v1 POST of `{"filters": ...}` with the instance's scope, and no query |
| Dependencies.DependencyScope | snyk/managers.py:1104-1109 | reference definition, no ensures: the organization to ask and the filters to send; proved about in `Dependencies.DependenciesRequest` and `ProjectScope` |
| Dependencies.DependencyStep | snyk/managers.py:1103-1126 | reference definition, no ensures: one call of `all(page)` before it recurses: the POST and what its reply gives; proved about in `Dependencies.DependencyRequests` and computed by `Dependencies.DependencyManager.FetchPage` |
| Dependencies.ReadDependencies | snyk/managers.py:1118-1126 | a page reads when `total` and an iterable `results` are present and `total` is a number; another page follows exactly when `total > page * 1000` |
| Dependencies.MoreBeforeLast | snyk/managers.py:1126 | `total > page * 1000` exactly when the page is before the last page the total needs |
| Dependencies.DependencyPagesCount | snyk/managers.py:1102-1130 | with a steady total, the walk sends one request per page up to the last, the i-th for page `page + i`, and returns the pages' results concatenated in page order |
| Dependencies.DependencyRequests | snyk/managers.py:1111-1117 | each request of the walk is the POST for its own page |
| Dependencies.DependencyPages | snyk/managers.py:1102-1130 | reference definition, no ensures: the recursion of `all(page)` on fuel; proved about in `Dependencies.DependencyPagesCount` and `DependencyRequests` |
| Dependencies.AllDependencies | snyk/managers.py:1102-1130 | reference definition, no ensures: `all(page)` for an instance; proved about in `Dependencies.ProjectScope` and computed by `Dependencies.DependencyManager.All` |
| Dependencies.ProjectScope | snyk/managers.py:1104-1106 | a project asks its organization and posts a filter for that project alone |
| Dependencies.DependencyManager.constructor | snyk/managers.py:19-22 | the manager keeps its client and instance |
| Dependencies.DependencyManager.FetchPage | snyk/managers.py:1103-1126 | one call before the recursion: the step for the page, logging its single POST |
| Dependencies.DependencyManager.Walk | snyk/managers.py:1102-1130 | the recursion returns and sends exactly what `DependencyPages` specifies |
| Dependencies.DependencyManager.All | snyk/managers.py:1102-1130 | `all(page)` returns and sends exactly what `AllDependencies` specifies |
| Integrations.ListIndex | snyk/managers.py:1221 | a list indexed by an int or bool counts from the end when negative; other index values raise |
| Integrations.ListPairs | snyk/managers.py:1221 | over a list, the pairs exist exactly when every item indexes the list, and each pairs the item with its entry |
| Integrations.IntegrationPairs | snyk/managers.py:1221 | a dict gives one pair per key; null, bool and int raise |
| Integrations.ListIntegrations | snyk/managers.py:1217-1226 | `all()` sends the one v1 GET, and every integration carries the organization |
| Integrations.IntegrationsOfDict | snyk/managers.py:1218-1226 | a dict reply gives one integration per key, in order, named by the key and identified by its value |
| Integrations.IntegrationsOfList | snyk/managers.py:1221 | a list reply works exactly when each item is a valid index into the list |
| Integrations.JiraIssueOf | snyk/managers.py:1204-1213 | the result is `data[issue_id][0]["jiraIssue"]`; a missing issue id raises `SnykError` |
| Integrations.JiraIssuePath | snyk/managers.py:1197-1201 | the path needs the project's organization |
| Integrations.CreateJiraIssue | snyk/managers.py:1196-1213 | `create` sends one v1 POST of `{"fields": fields}`; a reply that is not ok raises its `HttpError`, any other gives `JiraIssueOf` of its body; nothing is sent without an organization |
| Integrations.JiraIssueFound | snyk/managers.py:1207-1212 | a reply mapping the issue id to a list whose first result has `jiraIssue` gives that value |
| Integrations.JiraIssueNoResults | snyk/managers.py:1209-1213 | an empty list of results raises `SnykError` |
| Integrations.JiraIssueMissing | snyk/managers.py:1207-1213 | a first result without `jiraIssue` raises `SnykError` |
| Integrations.IntegrationManager.constructor | snyk/managers.py:19-22 | the manager keeps its client and organization |
| Integrations.IntegrationManager.All | snyk/managers.py:1217-1226 | returns and sends exactly what `ListIntegrations` specifies |
| Integrations.JiraIssueManager.constructor | snyk/managers.py:19-22 | the manager keeps its client and project |
| Integrations.JiraIssueManager.Create | snyk/managers.py:1196-1213 | returns and sends exactly what `CreateJiraIssue` specifies |
| Collections.AllCollections | snyk/managers.py:731-740 | without an organization, `all()` raises the guard's `SnykError` and sends nothing |
| Collections.DataOf | snyk/managers.py:750-751 | `resp.json()["data"]`: present exactly when the reply is ok, a dict, and has `data` |
| Collections.GetCollection | snyk/managers.py:742-752 | `get(id)` is guarded; otherwise it sends one REST GET of `orgs/<org>/collections/<id>` and gives the reply's `data` |
| Collections.CreateCollection | snyk/managers.py:754-771 | `create(name)` is guarded; otherwise it sends one REST POST of the payload and gives the reply's `data` |
| Collections.AllCollectionsFirst | snyk/managers.py:733-739 | the walk sends nothing exactly when there is no organization; otherwise it starts with the REST GET of the collections path |
| Collections.CreatePayload | snyk/managers.py:761-769 | the payload is posted whole to the REST base with the version query, and carries type `collection` and the name |
| Collections.CollectionManager.constructor | snyk/managers.py:19-22 | the manager keeps its client and optional organization |
| Collections.CollectionManager.All | snyk/managers.py:731-740 | returns and sends exactly what `AllCollections` specifies |
| Collections.CollectionManager.Get | snyk/managers.py:742-752 | returns and sends exactly what `GetCollection` specifies |
| Collections.CollectionManager.Create | snyk/managers.py:754-771 | returns and sends exactly what `CreateCollection` specifies |

## Left out

- **HTTP, retries and plumbing.** HTTP through `requests`, `retry_call` with its tries, delay and backoff, and logging are not modelled. Neither are headers (token, User-Agent, Content-Type), TLS `verify` and the `debug` switch. The transport is a deterministic function from request to reply. Each request is sent once, as with the default `tries=1`.
- **`cleanup_path` and `snake_to_camel`.** These come from `snyk/utils` and are not part of this model. They are function parameters: `Config.cleanupPath`, and the `snakeToCamel` of `SettingManager`.
- **`from_dict`.** The model classes' `from_dict` is not part of this model. A decoded object is its JSON record. `Organization.from_dict` is modelled as needing a string `id`.
- **Attribute assignments on decoded objects.** Setting `org.client`, `x.organization` and `integration.organization` is not modelled. `IntegrationManager.all` records the organization in the `Integration` value instead.
- **AttributeError.** It is modelled as `TypeError`, for example `instance.organization` on an organization.
- **A non-string `next` link.** When truthy, it is modelled as `TypeError`.
- **The per-resource CRUD managers.** The CRUD managers at `snyk/managers.py:94-858` are not modelled, except `CollectionManager`, which stands for their shared organization guard. Each of them is defined twice, and these are path formatting around one request.
- **Thin request wrappers.** `TagManager`, `DependencyGraphManager` and `IssuePathsManager` are not modelled.
- **The `all()` GETs of the dict managers.** These are `MemberManager`, `LicenseManager`, `EntitlementManager`, `SettingManager.all`, `IgnoreManager`, `JiraIssueManager.all` and `IntegrationSettingManager`. They are single GETs returning the reply. The `DictManager` behaviour over any returned value is modelled (`DictGet`, `DictFilter`, `DictFirst`).
- **The `@deprecated` decorator.** It is not modelled.
- **Repeated keys in a JSON object.** An object is a list of entries, so the type allows a key twice. Only objects without repeated keys (`Json.DictLike`) stand for Python dicts. A reply body with a repeated key is not excluded from the model: `Lookup` then finds the first value, while Python's decoder would keep the last.
- **JSON floats, and a reply body that is not JSON.** The JSON model has no floats, and every reply body is well-formed JSON.
- **`bool(resp)` in `SettingManager.update`.** It is modelled as True for a reply that is ok.
- **Unbounded recursion.** A walk or recursion longer than its ghost `fuel` has no specified outcome (`None`). Python would go on fetching, or raise `RecursionError`.
- **`Client.FirstPageItems`.** A first page whose `data` is not a list is modelled as `TypeError`. Python returns such a value unchanged when no later page follows.
- **In-place mutation in `Issues.ConvertReservedWords`.** The conversion is modelled on values. The reply is rebuilt rather than mutated in place, so aliasing between the mutated dict and the caller's is not captured.
- **In-place mutation in `Projects.ProjectManager.Get`.** Likewise, the record is rebuilt rather than mutated in place.
