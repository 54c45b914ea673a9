/**
 * The manager layer's generic part (snyk/managers.py): `get`, `first` and
 * `filter` over the list a manager's `all()` returns, their `DictManager`
 * and `SingletonManager` variants, and the closed `factory` table.
 *
 * The objects a manager returns are built by `from_dict` from decoded JSON;
 * here they stay the JSON records they are built from, and an attribute of
 * such an object is the member of that name.
 */
module Managers {
  import opened Errors
  import opened Json

  /**
   * The model object a scoped manager works for: its id, the organization it
   * belongs to (projects have one, organizations do not) and `to_dict()`.
   */
  datatype Instance = Instance(id: string, organization: Option<Instance>, record: Json)

  /** `self.instance.organization.id`: an instance without an organization has no such attribute. */
  function OrganizationId(inst: Instance): (r: Result<string>)
    ensures r.Ok? <==> inst.organization.Some?
    ensures r.Ok? ==> r.value == inst.organization.value.id
    ensures r.Err? ==> r.error == TypeError
  {
    if inst.organization.Some? then Ok(inst.organization.value.id) else Err(TypeError)
  }

  /** `obj.name` exists: the record is a dict holding `name`. */
  predicate HasAttr(x: Json, name: string) {
    x.Object? && HasKey(x.members, name)
  }

  /** `getattr(x, name)`: a missing attribute raises AttributeError. */
  function Attr(x: Json, name: string): (r: Result<Json>)
    ensures r.Ok? <==> HasAttr(x, name)
    ensures r.Ok? ==> Lookup(x.members, name) == Some(r.value)
    ensures r.Err? ==> r.error == TypeError
  {
    if HasAttr(x, name) then Ok(Lookup(x.members, name).value) else Err(TypeError)
  }

  /** `x.id == id`. */
  predicate IdIs(x: Json, id: string)
    requires HasAttr(x, "id")
  {
    PyEq(Lookup(x.members, "id").value, Str(id))
  }

  /**
   * `Manager.get(id)`: the first of `items` whose `id` equals `id`. The search
   * reads the ids in order and stops at the first match, so only a record
   * before the match that has no `id` makes it fail.
   */
  function FindById(items: seq<Json>, id: string): (r: Result<Json>)
    ensures r.Ok? ==> exists i :: 0 <= i < |items| && items[i] == r.value && HasAttr(items[i], "id") && IdIs(items[i], id)
    ensures r.Ok? ==> HasAttr(r.value, "id") && IdIs(r.value, id)
    ensures r == Err(NotFound) <==> forall x :: x in items ==> HasAttr(x, "id") && !IdIs(x, id)
    ensures r.Err? ==> r.error == NotFound || r.error == TypeError
  {
    if items == [] then Err(NotFound)
    else
      var v :- Attr(items[0], "id");
      if PyEq(v, Str(id)) then Ok(items[0])
      else
        var r := FindById(items[1..], id);
        assert forall x :: x in items ==> x == items[0] || x in items[1..];
        assert r.Ok? ==> exists i :: 0 < i < |items| && items[i] == r.value && HasAttr(items[i], "id") && IdIs(items[i], id) by {
          if r.Ok? {
            var j :| 0 <= j < |items[1..]| && items[1..][j] == r.value && HasAttr(items[1..][j], "id") && IdIs(items[1..][j], id);
            assert items[j + 1] == items[1..][j];
          }
        }
        r
  }

  /** A record before position `i` never has an id equal to `id`. */
  lemma {:induction false} FindByIdFirst(items: seq<Json>, id: string, i: nat)
    requires i < |items| && HasAttr(items[i], "id") && IdIs(items[i], id)
    requires forall j :: 0 <= j < i ==> HasAttr(items[j], "id") && !IdIs(items[j], id)
    ensures FindById(items, id) == Ok(items[i])
  {
    if i > 0 {
      FindByIdFirst(items[1..], id, i - 1);
    }
  }

  /** `Manager.first()`: `all()[0]`, or SnykNotFoundError for an empty list. */
  function First(items: seq<Json>): (r: Result<Json>)
    ensures r.Ok? <==> items != []
    ensures r.Ok? ==> r.value == items[0]
    ensures r.Err? ==> r.error == NotFound
  {
    if items == [] then Err(NotFound) else Ok(items[0])
  }

  /**
   * The records whose attribute `key` equals `value`, in order: every
   * record's attribute is read, so a record without it fails the whole
   * comprehension.
   */
  function Keep(data: seq<Json>, key: string, value: Json): (r: Result<seq<Json>>)
    ensures r.Ok? <==> forall x :: x in data ==> HasAttr(x, key)
    ensures r.Err? ==> r.error == TypeError
    ensures r.Ok? ==> |r.value| <= |data|
  {
    if data == [] then Ok([])
    else
      var a := Attr(data[0], key);
      var rest := Keep(data[1..], key, value);
      assert forall x :: x in data ==> x == data[0] || x in data[1..];
      if a.Err? then Err(a.error)
      else if rest.Err? then Err(rest.error)
      else Ok(if PyEq(a.value, value) then [data[0]] + rest.value else rest.value)
  }

  /** `_filter_by_kwargs(data, **kwargs)`: one comprehension per argument, in argument order. */
  function Selected(data: seq<Json>, kwargs: seq<Entry>): (r: Result<seq<Json>>)
    ensures kwargs == [] ==> r == Ok(data)
    ensures r.Err? ==> r.error == TypeError
    ensures r.Ok? ==> |r.value| <= |data|
    decreases |kwargs|
  {
    if kwargs == [] then Ok(data)
    else
      var d :- Keep(data, kwargs[0].key, kwargs[0].value);
      Selected(d, kwargs[1..])
  }

  /** `_filter_by_kwargs`: the loop that rebinds `data` to each filtered list in turn. */
  method FilterByKwargs(data: seq<Json>, kwargs: seq<Entry>) returns (r: Result<seq<Json>>)
    ensures r == Selected(data, kwargs)
  {
    var d := data;
    var i := 0;
    while i < |kwargs|
      invariant 0 <= i <= |kwargs|
      invariant Selected(data, kwargs) == Selected(d, kwargs[i..])
    {
      assert kwargs[i..][1..] == kwargs[i + 1..];
      var kept := Keep(d, kwargs[i].key, kwargs[i].value);
      if kept.Err? {
        return Err(kept.error);
      }
      d := kept.value;
      i := i + 1;
    }
    assert kwargs[i..] == [];
    return Ok(d);
  }

  /** The record's attribute `key` equals `value`. */
  predicate Matches(x: Json, key: string, value: Json) {
    HasAttr(x, key) && PyEq(Lookup(x.members, key).value, value)
  }

  /** The record matches every keyword argument. */
  predicate MatchesAll(x: Json, kwargs: seq<Entry>) {
    forall j :: 0 <= j < |kwargs| ==> Matches(x, kwargs[j].key, kwargs[j].value)
  }

  /** Reference definition of filtering: the records matching every argument, in their order. */
  function Where(data: seq<Json>, kwargs: seq<Entry>): seq<Json> {
    if data == [] then []
    else (if MatchesAll(data[0], kwargs) then [data[0]] else []) + Where(data[1..], kwargs)
  }

  /** Every record carries every attribute the arguments name. */
  predicate Attributed(data: seq<Json>, kwargs: seq<Entry>) {
    forall x, j :: x in data && 0 <= j < |kwargs| ==> HasAttr(x, kwargs[j].key)
  }

  /** Where keeps exactly the matching records. */
  lemma {:induction false} WhereMembers(data: seq<Json>, kwargs: seq<Entry>, x: Json)
    ensures x in Where(data, kwargs) <==> x in data && MatchesAll(x, kwargs)
  {
    if data != [] {
      WhereMembers(data[1..], kwargs, x);
      assert x in data <==> x == data[0] || x in data[1..];
    }
  }

  /** Matching a list of arguments is matching its first and then the others. */
  lemma MatchesAllCons(x: Json, e: Entry, rest: seq<Entry>)
    ensures MatchesAll(x, [e] + rest) <==> Matches(x, e.key, e.value) && MatchesAll(x, rest)
  {
    var kw := [e] + rest;
    assert forall j :: 0 < j < |kw| ==> kw[j] == rest[j - 1];
    if Matches(x, e.key, e.value) && MatchesAll(x, rest) {
      forall j | 0 <= j < |kw|
        ensures Matches(x, kw[j].key, kw[j].value)
      {
        if j > 0 {
          assert kw[j] == rest[j - 1];
        }
      }
    }
    if MatchesAll(x, kw) {
      assert kw[0] == e;
      forall j | 0 <= j < |rest|
        ensures Matches(x, rest[j].key, rest[j].value)
      {
        assert kw[j + 1] == rest[j];
      }
    }
  }

  /** One comprehension, on records that all have the attribute, keeps the matching ones. */
  lemma {:induction false} KeepIsWhere(data: seq<Json>, key: string, value: Json)
    requires forall x :: x in data ==> HasAttr(x, key)
    ensures Keep(data, key, value) == Ok(Where(data, [Entry(key, value)]))
  {
    if data != [] {
      assert forall x :: x in data[1..] ==> x in data;
      KeepIsWhere(data[1..], key, value);
      var kw := [Entry(key, value)];
      assert MatchesAll(data[0], kw) <==> Matches(data[0], key, value) by {
        assert kw[0] == Entry(key, value);
      }
      assert Attr(data[0], key) == Ok(Lookup(data[0].members, key).value);
      var w := Where(data[1..], kw);
      assert Keep(data[1..], key, value) == Ok(w);
      if Matches(data[0], key, value) {
        assert Where(data, kw) == [data[0]] + w;
      } else {
        assert Where(data, kw) == [] + w == w;
      }
    }
  }

  /** Filtering by the first argument and then by the others is filtering by all of them. */
  lemma {:induction false} WhereSplit(data: seq<Json>, e: Entry, rest: seq<Entry>)
    ensures Where(Where(data, [e]), rest) == Where(data, [e] + rest)
  {
    if data != [] {
      WhereSplit(data[1..], e, rest);
      MatchesAllCons(data[0], e, rest);
      MatchesAllCons(data[0], e, []);
      assert [e] + [] == [e];
      var w := Where(data, [e]);
      if MatchesAll(data[0], [e]) {
        assert w == [data[0]] + Where(data[1..], [e]);
        assert w[1..] == Where(data[1..], [e]);
      } else {
        assert w == Where(data[1..], [e]);
      }
    }
  }

  /**
   * `filter(**kwargs)` on records that all carry the named attributes is the
   * order-preserving selection of the records matching every argument.
   */
  lemma {:induction false} SelectedIsWhere(data: seq<Json>, kwargs: seq<Entry>)
    requires Attributed(data, kwargs)
    ensures Selected(data, kwargs) == Ok(Where(data, kwargs))
    decreases |kwargs|
  {
    if kwargs == [] {
      WhereAll(data);
    } else {
      var k := kwargs[0];
      assert forall x :: x in data ==> HasAttr(x, k.key);
      assert kwargs == [k] + kwargs[1..];
      KeepIsWhere(data, k.key, k.value);
      WhereSplit(data, k, kwargs[1..]);
      var d := Where(data, [k]);
      forall x, j | x in d && 0 <= j < |kwargs[1..]|
        ensures HasAttr(x, kwargs[1..][j].key)
      {
        WhereMembers(data, [k], x);
        assert kwargs[1..][j] == kwargs[j + 1];
      }
      SelectedIsWhere(d, kwargs[1..]);
    }
  }

  /** With no arguments nothing is dropped. */
  lemma {:induction false} WhereAll(data: seq<Json>)
    ensures Where(data, []) == data
  {
    if data != [] {
      WhereAll(data[1..]);
    }
  }

  /** `DictManager.get(id)`: `all()[id]`, with a missing key reported as SnykNotFoundError. */
  function DictGet(all: Json, id: string): (r: Result<Json>)
    ensures all.Object? ==> (r.Ok? <==> HasKey(all.members, id))
    ensures r.Ok? ==> all.Object? && Lookup(all.members, id) == Some(r.value)
    ensures all.Object? && !HasKey(all.members, id) ==> r == Err(NotFound)
    ensures !all.Object? ==> r == Err(TypeError)
  {
    match PyIndex(all, id)
    case Ok(v) => Ok(v)
    case Err(e) => if e.KeyError? then Err(NotFound) else Err(e)
  }

  /** `DictManager.filter(**kwargs)` is not supported. */
  function DictFilter(all: Json, kwargs: seq<Entry>): (r: Result<Json>)
    ensures r.Err? && r.error == NotImplemented
  {
    Err(NotImplemented)
  }

  /** `DictManager.first()`: the first (key, value) pair of `all()`, in insertion order. */
  function DictFirst(all: Json): (r: Result<Entry>)
    ensures all.Object? ==> (r.Ok? <==> all.members != [])
    ensures r.Ok? ==> all.Object? && Keys(all.members)[0] == r.value.key
    ensures r.Ok? ==> Lookup(all.members, r.value.key) == Some(r.value.value)
    ensures all.Object? && all.members == [] ==> r == Err(NotFound)
    ensures !all.Object? ==> r == Err(TypeError)
  {
    if !all.Object? then Err(TypeError)
    else if all.members == [] then Err(NotFound)
    else Ok(all.members[0])
  }

  /** `SingletonManager.first()` is not supported. */
  function SingletonFirst(): (r: Result<Json>)
    ensures r.Err? && r.error == NotImplemented
  {
    Err(NotImplemented)
  }

  /** `SingletonManager.get(id)` is not supported. */
  function SingletonGet(id: string): (r: Result<Json>)
    ensures r.Err? && r.error == NotImplemented
  {
    Err(NotImplemented)
  }

  /** `SingletonManager.filter(**kwargs)` is not supported. */
  function SingletonFilter(kwargs: seq<Entry>): (r: Result<Json>)
    ensures r.Err? && r.error == NotImplemented
  {
    Err(NotImplemented)
  }

  /** The managers `factory` can build. */
  datatype Kind =
    | ProjectManager | OrganizationManager | MemberManager | LicenseManager
    | DependencyManager | EntitlementManager | SettingManager | IgnoreManager
    | JiraIssueManager | DependencyGraphManager | IssueSetManager
    | IssueSetAggregatedManager | IntegrationManager | IntegrationSettingManager
    | TagManager | IssuePathsManager | TargetsManager | IssuesManager
    | GroupManager | UserManager | CollectionManager | ServiceAccountManager
    | EnvironmentManager | InviteManager | AppManager | AuditLogManager

  /** The key a manager is registered under. */
  function KindKey(k: Kind): string {
    match k
    case ProjectManager => "Project"
    case OrganizationManager => "Organization"
    case MemberManager => "Member"
    case LicenseManager => "License"
    case DependencyManager => "Dependency"
    case EntitlementManager => "Entitlement"
    case SettingManager => "Setting"
    case IgnoreManager => "Ignore"
    case JiraIssueManager => "JiraIssue"
    case DependencyGraphManager => "DependencyGraph"
    case IssueSetManager => "IssueSet"
    case IssueSetAggregatedManager => "IssueSetAggregated"
    case IntegrationManager => "Integration"
    case IntegrationSettingManager => "IntegrationSetting"
    case TagManager => "Tag"
    case IssuePathsManager => "IssuePaths"
    case TargetsManager => "Target"
    case IssuesManager => "RestIssue"
    case GroupManager => "Group"
    case UserManager => "RestUser"
    case CollectionManager => "Collection"
    case ServiceAccountManager => "ServiceAccount"
    case EnvironmentManager => "Environment"
    case InviteManager => "Invite"
    case AppManager => "App"
    case AuditLogManager => "AuditLog"
  }

  /** The table of `factory`, read as a dict lookup. */
  function Registered(key: string): Option<Kind> {
    match key
    case "Project" => Some(ProjectManager)
    case "Organization" => Some(OrganizationManager)
    case "Member" => Some(MemberManager)
    case "License" => Some(LicenseManager)
    case "Dependency" => Some(DependencyManager)
    case "Entitlement" => Some(EntitlementManager)
    case "Setting" => Some(SettingManager)
    case "Ignore" => Some(IgnoreManager)
    case "JiraIssue" => Some(JiraIssueManager)
    case "DependencyGraph" => Some(DependencyGraphManager)
    case "IssueSet" => Some(IssueSetManager)
    case "IssueSetAggregated" => Some(IssueSetAggregatedManager)
    case "Integration" => Some(IntegrationManager)
    case "IntegrationSetting" => Some(IntegrationSettingManager)
    case "Tag" => Some(TagManager)
    case "IssuePaths" => Some(IssuePathsManager)
    case "Target" => Some(TargetsManager)
    case "RestIssue" => Some(IssuesManager)
    case "Group" => Some(GroupManager)
    case "RestUser" => Some(UserManager)
    case "Collection" => Some(CollectionManager)
    case "ServiceAccount" => Some(ServiceAccountManager)
    case "Environment" => Some(EnvironmentManager)
    case "Invite" => Some(InviteManager)
    case "App" => Some(AppManager)
    case "AuditLog" => Some(AuditLogManager)
    case _ => None
  }

  /** What `factory` is given: a class name as a string, or a model class. */
  datatype Klass = Named(name: string) | ModelClass(className: string)

  /** A string is its own key; a class is keyed by its `__name__`. */
  function KeyOf(klass: Klass): string {
    match klass
    case Named(s) => s
    case ModelClass(n) => n
  }

  /** `Manager.factory(klass, client, instance)`: the manager registered for the key, or SnykError. */
  function Factory(klass: Klass): (r: Result<Kind>)
    ensures r.Ok? ==> KindKey(r.value) == KeyOf(klass)
    ensures r.Err? ==> r.error.SnykError?
  {
    match Registered(KeyOf(klass))
    case Some(k) =>
      assert KindKey(k) == KeyOf(klass) by { RegisteredKey(KeyOf(klass)); }
      Ok(k)
    case None => Err(SnykError(""))
  }

  /** Every entry of the table is keyed by its manager's own key. */
  lemma RegisteredKey(key: string)
    ensures Registered(key).Some? ==> KindKey(Registered(key).value) == key
  {
  }

  /** Every manager is reachable through the factory, by its key and by its class. */
  lemma FactoryRoundTrip(k: Kind)
    ensures Registered(KindKey(k)) == Some(k)
    ensures Factory(Named(KindKey(k))) == Ok(k)
    ensures Factory(ModelClass(KindKey(k))) == Ok(k)
  {
    match k
    case ProjectManager =>
    case OrganizationManager =>
    case MemberManager =>
    case LicenseManager =>
    case DependencyManager =>
    case EntitlementManager =>
    case SettingManager =>
    case IgnoreManager =>
    case JiraIssueManager =>
    case DependencyGraphManager =>
    case IssueSetManager =>
    case IssueSetAggregatedManager =>
    case IntegrationManager =>
    case IntegrationSettingManager =>
    case TagManager =>
    case IssuePathsManager =>
    case TargetsManager =>
    case IssuesManager =>
    case GroupManager =>
    case UserManager =>
    case CollectionManager =>
    case ServiceAccountManager =>
    case EnvironmentManager =>
    case InviteManager =>
    case AppManager =>
    case AuditLogManager =>
  }

  /** The table is closed: a key that is no manager's key raises SnykError. */
  lemma FactoryClosed(klass: Klass)
    requires forall k: Kind :: KindKey(k) != KeyOf(klass)
    ensures Factory(klass).Err?
  {
  }
}
