/**
 * The issue sets of a project (snyk/managers.py): `IssueSetManager.filter`,
 * which posts a filter body and renames the reserved word "from" in the
 * reply, and `IssueSetAggregatedManager.filter`.
 */
module Issues {
  import opened Errors
  import opened Text
  import opened Json
  import opened Client
  import opened Managers
  import opened Bodies

  const Severities: Json := Array([Str("critical"), Str("high"), Str("medium"), Str("low")])
  const IssueTypes: Json := Array([Str("vuln"), Str("license")])
  const ExploitMaturity: Json := Array([Str("mature"), Str("proof-of-concept"), Str("no-known-exploit"), Str("no-data")])
  const Priority: Json := Object([Entry("score", Object([Entry("min", Int(0)), Entry("max", Int(1000))]))])

  /** The filters `IssueSetManager.filter` starts from. */
  const IssueDefaults: seq<Entry> := [
    Entry("severities", Severities),
    Entry("types", IssueTypes),
    Entry("ignored", Bool(false)),
    Entry("patched", Bool(false))
  ]
  const IssueFilterNames: seq<string> := ["severities", "types", "ignored", "patched"]

  /** The filters `IssueSetAggregatedManager.filter` starts from. */
  const AggregatedDefaults: seq<Entry> := [
    Entry("severities", Severities),
    Entry("exploitMaturity", ExploitMaturity),
    Entry("types", IssueTypes),
    Entry("priority", Priority)
  ]
  const AggregatedFilterNames: seq<string> := ["severities", "exploitMaturity", "types", "priority", "ignored", "patched"]
  const OptionalFields: seq<string> := ["includeDescription", "includeIntroducedThrough"]

  /** Filter names are used as they are. */
  function Same(name: string): string {
    name
  }

  function ProjectIssuesPath(inst: Instance, leaf: string): (r: Result<string>)
    ensures r.Err? <==> inst.organization.None?
    ensures r.Ok? ==> r.value == "org/" + inst.organization.value.id + "/project/" + inst.id + "/" + leaf
  {
    var org :- OrganizationId(inst);
    Ok("org/" + org + "/project/" + inst.id + "/" + leaf)
  }

  // ---------------------------------------------------------------- IssueSetManager

  /** `filters[name] = kwargs[name]` for each default filter whose argument is truthy. */
  function IssueFilters(kwargs: seq<Entry>): seq<Entry> {
    Whitelisted(IssueDefaults, IssueFilterNames, kwargs, Same, true)
  }

  /** A reply item with its "from" value moved to a new last key "fromPackages", when it holds "from". */
  function RenameFrom(item: Json): (r: Result<Json>)
    ensures item.Object? && !HasKey(item.members, "from") ==> r == Ok(item)
    ensures item.Object? && HasKey(item.members, "from") ==>
              && r.Ok? && r.value.Object?
              && !HasKey(r.value.members, "from")
              && Lookup(r.value.members, "fromPackages") == Lookup(item.members, "from")
              && (forall k :: k != "from" && k != "fromPackages" ==> Lookup(r.value.members, k) == Lookup(item.members, k))
    ensures !item.Object? ==> (r.Ok? <==> PyIn("from", item) == Ok(false))
    ensures r.Err? ==> r.error == TypeError
  {
    var has :- PyIn("from", item);
    if !has then Ok(item)
    else
      match item
      case Object(ms) =>
        var renamed := Put(Remove(ms, "from"), "fromPackages", Lookup(ms, "from").value);
        assert "from" != "fromPackages" by { assert |"from"| != |"fromPackages"|; }
        assert Lookup(renamed, "from") == Lookup(Remove(ms, "from"), "from");
        Ok(Object(renamed))
      // a list has no `pop(str)` and a string no `pop` at all
      case _ => Err(TypeError)
  }

  /** Every item of a list renamed, or the error of the first that cannot be. */
  function RenameAll(items: seq<Json>): (r: Result<seq<Json>>)
    ensures r.Ok? <==> forall i :: 0 <= i < |items| ==> RenameFrom(items[i]).Ok?
    ensures r.Ok? ==> |r.value| == |items| && forall i :: 0 <= i < |items| ==> r.value[i] == RenameFrom(items[i]).value
    ensures r.Err? ==> r.error == TypeError
  {
    if items == [] then Ok([])
    else
      var first :- RenameFrom(items[0]);
      var rest :- RenameAll(items[1..]);
      Ok([first] + rest)
  }

  /** The position of the first key that contains `t`. */
  function FirstContaining(keys: seq<string>, t: string): (r: Option<nat>)
    ensures r.Some? ==> r.value < |keys| && Contains(keys[r.value], t)
                        && forall j :: 0 <= j < r.value ==> !Contains(keys[j], t)
    ensures r.None? ==> forall j :: 0 <= j < |keys| ==> !Contains(keys[j], t)
  {
    if keys == [] then None
    else if Contains(keys[0], t) then Some(0)
    else
      match FirstContaining(keys[1..], t)
      case Some(i) => Some(i + 1)
      case None => None
  }

  /**
   * The container under the issue kind after the renaming loop over it:
   * a list has its items renamed; a dict yields its keys, and the first key
   * holding "from" makes `d[i]` raise KeyError(i); a string yields single
   * characters, none of which holds "from"; anything else is not iterable.
   */
  function ConvertList(container: Json): (r: Result<Json>)
    ensures container.Array? ==> r == (var ys := RenameAll(container.items); if ys.Ok? then Ok(Array(ys.value)) else Err(ys.error))
    ensures container.Object? ==> (r.Ok? <==> FirstContaining(Keys(container.members), "from").None?)
    ensures container.Object? && r.Ok? ==> r.value == container
  {
    match container
    case Array(xs) =>
      var ys :- RenameAll(xs);
      Ok(Array(ys))
    case Object(ms) =>
      (match FirstContaining(Keys(ms), "from")
       case Some(i) => Err(KeyError(NatToString(i)))
       case None => Ok(container))
    case Str(_) => Ok(container)
    case _ => Err(TypeError)
  }

  /** One turn of the outer loop: the items under "issues" and then `key` are renamed when both keys are present. */
  function ConvertKey(data: Json, key: string): (r: Result<Json>)
    ensures PyIn("issues", data) == Ok(false) ==> r == Ok(data)
  {
    var hasIssues :- PyIn("issues", data);
    if !hasIssues then Ok(data)
    else
      var issues :- PyIndex(data, "issues");
      var hasKey :- PyIn(key, issues);
      if !hasKey then Ok(data)
      else
        var container :- PyIndex(issues, key);
        var converted :- ConvertList(container);
        Ok(Object(Put(data.members, "issues", Object(Put(issues.members, key, converted)))))
  }

  const ReservedKeys: seq<string> := ["vulnerabilities", "licenses"]

  /** `_convert_reserved_words(data)` over the keys still to visit. */
  function ConvertKeys(data: Json, keys: seq<string>): (r: Result<Json>)
    decreases |keys|
  {
    if keys == [] then Ok(data)
    else
      var next :- ConvertKey(data, keys[0]);
      ConvertKeys(next, keys[1..])
  }

  /** `_convert_reserved_words(data)`. */
  function Converted(data: Json): Result<Json> {
    ConvertKeys(data, ReservedKeys)
  }

  /** `filter(**kwargs)`: a v1 POST of {"filters": ...}, whose reply has its reserved words renamed. */
  function IssueSetFilter(c: Config, routes: Request -> Reply, inst: Instance, kwargs: seq<Entry>): (r: Exchange<Json>)
    ensures inst.organization.None? ==> r == Exchange(Err(TypeError), [])
    ensures inst.organization.Some? ==>
              r.sent == [BodyRequest(c, POST, ProjectIssuesPath(inst, "issues").value,
                                     Some(Object([Entry("filters", Object(IssueFilters(kwargs)))])), false)]
    ensures inst.organization.Some? ==>
              r.outcome == (var reply := Receive(routes(r.sent[0]));
                            if reply.Err? then Err(reply.error) else Converted(reply.value))
  {
    match ProjectIssuesPath(inst, "issues")
    case Err(e) => Exchange(Err(e), [])
    case Ok(path) =>
      var req := BodyRequest(c, POST, path, Some(Object([Entry("filters", Object(IssueFilters(kwargs)))])), false);
      var reply := Receive(routes(req));
      Exchange(if reply.Err? then Err(reply.error) else Converted(reply.value), [req])
  }

  // ---------------------------------------------------------------- IssueSetAggregatedManager

  /** The default filters with every given filter argument copied in. */
  function AggregatedFilters(kwargs: seq<Entry>): seq<Entry> {
    Whitelisted(AggregatedDefaults, AggregatedFilterNames, kwargs, Same, false)
  }

  /** {"filters": ...} and the optional fields that were given. */
  function AggregatedBody(kwargs: seq<Entry>): seq<Entry> {
    Whitelisted([Entry("filters", Object(AggregatedFilters(kwargs)))], OptionalFields, kwargs, Same, false)
  }

  /** `filter(**kwargs)`: a v1 POST of the body; the reply as it is. */
  function AggregatedFilter(c: Config, routes: Request -> Reply, inst: Instance, kwargs: seq<Entry>): (r: Exchange<Json>)
    ensures inst.organization.None? ==> r == Exchange(Err(TypeError), [])
    ensures inst.organization.Some? ==>
              && r.sent == [BodyRequest(c, POST, ProjectIssuesPath(inst, "aggregated-issues").value, Some(Object(AggregatedBody(kwargs))), false)]
              && r.outcome == Receive(routes(r.sent[0]))
  {
    match ProjectIssuesPath(inst, "aggregated-issues")
    case Err(e) => Exchange(Err(e), [])
    case Ok(path) =>
      var req := BodyRequest(c, POST, path, Some(Object(AggregatedBody(kwargs))), false);
      Exchange(Receive(routes(req)), [req])
  }

  // ---------------------------------------------------------------- the loops of `_convert_reserved_words`

  /** The renaming loop over a list, one position at a time. */
  method RenameItems(items: seq<Json>) returns (r: Result<seq<Json>>)
    ensures r == RenameAll(items)
  {
    var xs := items;
    assert items[0..] == items;
    assert RenameAll(items).Ok? ==> [] + RenameAll(items).value == RenameAll(items).value;
    for i := 0 to |items|
      invariant |xs| == |items| && xs[i..] == items[i..]
      invariant RenameAll(items) == Prepend(xs[..i], RenameAll(items[i..]))
    {
      assert items[i..][1..] == items[i + 1..];
      var renamed := RenameFrom(xs[i]);
      if renamed.Err? {
        return Err(renamed.error);
      }
      ghost var done := xs[..i];
      PrependTwice(done, [renamed.value], RenameAll(items[i + 1..]));
      xs := xs[i := renamed.value];
      assert xs[..i + 1] == done + [renamed.value];
    }
    assert xs[..|items|] == xs && items[|items|..] == [] && xs + [] == xs;
    return Ok(xs);
  }

  /** One turn of the outer loop, with the inner loop over a list done in place. */
  method ConvertKeyStep(data: Json, key: string) returns (r: Result<Json>)
    ensures r == ConvertKey(data, key)
  {
    var hasIssues :- PyIn("issues", data);
    if !hasIssues {
      return Ok(data);
    }
    var issues :- PyIndex(data, "issues");
    var hasKey :- PyIn(key, issues);
    if !hasKey {
      return Ok(data);
    }
    var container :- PyIndex(issues, key);
    var converted: Json;
    if container.Array? {
      var items :- RenameItems(container.items);
      converted := Array(items);
    } else {
      converted :- ConvertList(container);
    }
    return Ok(Object(Put(data.members, "issues", Object(Put(issues.members, key, converted)))));
  }

  /** `_convert_reserved_words(data)`: the loop over "vulnerabilities" and "licenses". */
  method ConvertReservedWords(data: Json) returns (r: Result<Json>)
    ensures r == Converted(data)
  {
    var d := data;
    assert ReservedKeys[0..] == ReservedKeys;
    for k := 0 to |ReservedKeys|
      invariant Converted(data) == ConvertKeys(d, ReservedKeys[k..])
    {
      assert ReservedKeys[k..][1..] == ReservedKeys[k + 1..];
      var next := ConvertKeyStep(d, ReservedKeys[k]);
      if next.Err? {
        return next;
      }
      d := next.value;
    }
    return Ok(d);
  }

  // ---------------------------------------------------------------- properties

  /** A reply item that no longer holds "from" is left as it is. */
  predicate Clean(item: Json) {
    PyIn("from", item) == Ok(false)
  }

  /** Renaming leaves no item holding "from", and a second pass changes nothing. */
  lemma RenameAllClean(items: seq<Json>)
    requires RenameAll(items).Ok?
    ensures forall i :: 0 <= i < |items| ==> Clean(RenameAll(items).value[i])
    ensures RenameAll(RenameAll(items).value) == RenameAll(items)
  {
    var ys := RenameAll(items).value;
    forall i | 0 <= i < |items|
      ensures Clean(ys[i]) && RenameFrom(ys[i]) == Ok(ys[i])
    {
      assert RenameFrom(items[i]).Ok?;
    }
    assert RenameAll(ys).value == ys;
  }

  /** Converting a list twice is converting it once. */
  lemma ConvertListTwice(container: Json)
    requires ConvertList(container).Ok?
    ensures ConvertList(ConvertList(container).value) == ConvertList(container)
  {
    if container.Array? {
      RenameAllClean(container.items);
    }
  }

  /** `data` already converted at `key`. */
  predicate Settled(data: Json, key: string) {
    ConvertKey(data, key) == Ok(data)
  }

  /** After one turn the data is settled at that key. */
  lemma ConvertKeySettles(data: Json, key: string)
    requires ConvertKey(data, key).Ok?
    ensures Settled(ConvertKey(data, key).value, key)
  {
    var hasIssues := PyIn("issues", data).value;
    if hasIssues {
      var issues := PyIndex(data, "issues").value;
      if PyIn(key, issues).value {
        var container := PyIndex(issues, key).value;
        ConvertListTwice(container);
        var converted := ConvertList(container).value;
        var inner := Put(issues.members, key, converted);
        var outer := Put(data.members, "issues", Object(inner));
        PutSame(inner, key);
        PutSame(outer, "issues");
      }
    }
  }

  /** A turn on another key keeps data settled at `key`. */
  lemma ConvertKeyKeepsSettled(data: Json, key: string, other: string)
    requires key != other && Settled(data, key) && ConvertKey(data, other).Ok?
    ensures Settled(ConvertKey(data, other).value, key)
  {
    var after := ConvertKey(data, other).value;
    if after != data {
      var issues := PyIndex(data, "issues").value;
      var container := PyIndex(issues, other).value;
      var converted := ConvertList(container).value;
      var inner := Put(issues.members, other, converted);
      assert after == Object(Put(data.members, "issues", Object(inner)));
      assert HasKey(inner, key) == HasKey(issues.members, key);
      if HasKey(issues.members, key) {
        var mine := Lookup(issues.members, key).value;
        assert ConvertList(mine) == Ok(mine) by {
          var fixed := Put(issues.members, key, ConvertList(mine).value);
          assert Lookup(data.members, "issues") == Some(Object(fixed));
          assert Lookup(fixed, key) == Some(ConvertList(mine).value);
        }
        PutSame(inner, key);
        PutSame(Put(data.members, "issues", Object(inner)), "issues");
      }
    }
  }

  /** `_convert_reserved_words` is idempotent: its output is a fixed point. */
  lemma ConvertedTwice(data: Json)
    requires Converted(data).Ok?
    ensures Converted(Converted(data).value) == Converted(data)
  {
    var d1 := ConvertKey(data, "vulnerabilities").value;
    var d2 := ConvertKey(d1, "licenses").value;
    assert Converted(data) == Ok(d2);
    ConvertKeySettles(data, "vulnerabilities");
    ConvertKeySettles(d1, "licenses");
    ConvertKeyKeepsSettled(d1, "vulnerabilities", "licenses");
  }

  /**
   * One turn changes only the container under the issue kind `key`, to its converted value:
   * every other top-level key and every other issue list keeps its value.
   */
  lemma ConvertKeyChanges(data: Json, key: string)
    requires ConvertKey(data, key).Ok?
    ensures !data.Object? ==> ConvertKey(data, key).value == data
    ensures data.Object? ==>
              var after := ConvertKey(data, key).value;
              && after.Object?
              && (forall k :: k != "issues" ==> Lookup(after.members, k) == Lookup(data.members, k))
    ensures data.Object? && Lookup(data.members, "issues").Some? && Lookup(data.members, "issues").value.Object? ==>
              var before := Lookup(data.members, "issues").value.members;
              var after := Lookup(ConvertKey(data, key).value.members, "issues");
              && after.Some? && after.value.Object?
              && (forall k :: k != key ==> Lookup(after.value.members, k) == Lookup(before, k))
              && (HasKey(before, key) ==> Lookup(after.value.members, key) == Some(ConvertList(Lookup(before, key).value).value))
              && (!HasKey(before, key) ==> after.value.members == before)
  {
  }

  /** The filters sent: the defaults, each replaced by its argument when that is truthy; no other key. */
  lemma IssueFiltersContents(kwargs: seq<Entry>)
    ensures Keys(IssueFilters(kwargs)) == IssueFilterNames
    ensures forall i :: 0 <= i < |IssueFilterNames| ==>
              Lookup(IssueFilters(kwargs), IssueFilterNames[i])
              == if Picks(kwargs, IssueFilterNames[i], true) then Lookup(kwargs, IssueFilterNames[i])
                 else Lookup(IssueDefaults, IssueFilterNames[i])
  {
    KeysIndexed(IssueDefaults);
    assert Keys(IssueDefaults) == IssueFilterNames;
    WhitelistedKeys(IssueDefaults, IssueFilterNames, kwargs, Same, true);
    assert Injective(Same, IssueFilterNames);
    forall i | 0 <= i < |IssueFilterNames|
      ensures Lookup(IssueFilters(kwargs), IssueFilterNames[i])
              == if Picks(kwargs, IssueFilterNames[i], true) then Lookup(kwargs, IssueFilterNames[i])
                 else Lookup(IssueDefaults, IssueFilterNames[i])
    {
      WhitelistedPicked(IssueDefaults, IssueFilterNames, kwargs, Same, true, i);
    }
  }

  /**
   * The aggregated filters: the defaults with every given filter argument
   * copied in, including "ignored" and "patched", which have no default.
   */
  lemma AggregatedFiltersContents(kwargs: seq<Entry>)
    ensures forall i :: 0 <= i < |AggregatedFilterNames| ==>
              Lookup(AggregatedFilters(kwargs), AggregatedFilterNames[i])
              == if HasKey(kwargs, AggregatedFilterNames[i]) then Lookup(kwargs, AggregatedFilterNames[i])
                 else Lookup(AggregatedDefaults, AggregatedFilterNames[i])
    ensures forall k :: k !in AggregatedFilterNames ==> Lookup(AggregatedFilters(kwargs), k) == None
  {
    assert Injective(Same, AggregatedFilterNames);
    forall i | 0 <= i < |AggregatedFilterNames|
      ensures Lookup(AggregatedFilters(kwargs), AggregatedFilterNames[i])
              == if HasKey(kwargs, AggregatedFilterNames[i]) then Lookup(kwargs, AggregatedFilterNames[i])
                 else Lookup(AggregatedDefaults, AggregatedFilterNames[i])
    {
      WhitelistedPicked(AggregatedDefaults, AggregatedFilterNames, kwargs, Same, false, i);
    }
    KeysIndexed(AggregatedDefaults);
    forall k | k !in AggregatedFilterNames
      ensures Lookup(AggregatedFilters(kwargs), k) == None
    {
      assert !HasKey(AggregatedDefaults, k);
      WhitelistedOthers(AggregatedDefaults, AggregatedFilterNames, kwargs, Same, false, k);
    }
  }

  /** The aggregated body: "filters", and the optional fields exactly when given. */
  lemma AggregatedBodyContents(kwargs: seq<Entry>)
    ensures Lookup(AggregatedBody(kwargs), "filters") == Some(Object(AggregatedFilters(kwargs)))
    ensures forall i :: 0 <= i < |OptionalFields| ==>
              Lookup(AggregatedBody(kwargs), OptionalFields[i]) == Lookup(kwargs, OptionalFields[i])
    ensures forall k :: k != "filters" && k !in OptionalFields ==> Lookup(AggregatedBody(kwargs), k) == None
  {
    var base := [Entry("filters", Object(AggregatedFilters(kwargs)))];
    assert Injective(Same, OptionalFields);
    assert "filters" !in OptionalFields;
    WhitelistedOthers(base, OptionalFields, kwargs, Same, false, "filters");
    forall i | 0 <= i < |OptionalFields|
      ensures Lookup(AggregatedBody(kwargs), OptionalFields[i]) == Lookup(kwargs, OptionalFields[i])
    {
      WhitelistedPicked(base, OptionalFields, kwargs, Same, false, i);
    }
    forall k | k != "filters" && k !in OptionalFields
      ensures Lookup(AggregatedBody(kwargs), k) == None
    {
      WhitelistedOthers(base, OptionalFields, kwargs, Same, false, k);
    }
  }

  // ---------------------------------------------------------------- the managers

  /** `IssueSetManager` for a project. */
  class IssueSetManager {
    const client: SnykClient
    const instance: Instance

    constructor (client: SnykClient, instance: Instance)
      ensures this.client == client && this.instance == instance
    {
      this.client := client;
      this.instance := instance;
    }

    /** `filter(**kwargs)`. */
    method Filter(tr: Transport, kwargs: seq<Entry>) returns (r: Result<Json>)
      modifies tr
      ensures r == IssueSetFilter(client.Settings(), tr.routes, instance, kwargs).outcome
      ensures tr.log == old(tr.log) + IssueSetFilter(client.Settings(), tr.routes, instance, kwargs).sent
    {
      var path := ProjectIssuesPath(instance, "issues");
      if path.Err? {
        return Err(path.error);
      }
      var filters := Whitelist(IssueDefaults, IssueFilterNames, kwargs, Same, true);
      var resp := client.Post(tr, path.value, Object([Entry("filters", Object(filters))]), false);
      if resp.Err? {
        return Err(resp.error);
      }
      r := ConvertReservedWords(resp.value);
    }

    /** `all()`: the filter with no arguments. */
    method All(tr: Transport) returns (r: Result<Json>)
      modifies tr
      ensures r == IssueSetFilter(client.Settings(), tr.routes, instance, []).outcome
      ensures tr.log == old(tr.log) + IssueSetFilter(client.Settings(), tr.routes, instance, []).sent
    {
      r := Filter(tr, []);
    }
  }

  /** `IssueSetAggregatedManager` for a project. */
  class IssueSetAggregatedManager {
    const client: SnykClient
    const instance: Instance

    constructor (client: SnykClient, instance: Instance)
      ensures this.client == client && this.instance == instance
    {
      this.client := client;
      this.instance := instance;
    }

    /** `filter(**kwargs)`. */
    method Filter(tr: Transport, kwargs: seq<Entry>) returns (r: Result<Json>)
      modifies tr
      ensures r == AggregatedFilter(client.Settings(), tr.routes, instance, kwargs).outcome
      ensures tr.log == old(tr.log) + AggregatedFilter(client.Settings(), tr.routes, instance, kwargs).sent
    {
      var path := ProjectIssuesPath(instance, "aggregated-issues");
      if path.Err? {
        return Err(path.error);
      }
      var filters := Whitelist(AggregatedDefaults, AggregatedFilterNames, kwargs, Same, false);
      var body := Whitelist([Entry("filters", Object(filters))], OptionalFields, kwargs, Same, false);
      r := client.Post(tr, path.value, Object(body), false);
    }

    /** `all()`: the filter with no arguments. */
    method All(tr: Transport) returns (r: Result<Json>)
      modifies tr
      ensures r == AggregatedFilter(client.Settings(), tr.routes, instance, []).outcome
      ensures tr.log == old(tr.log) + AggregatedFilter(client.Settings(), tr.routes, instance, []).sent
    {
      r := Filter(tr, []);
    }
  }
}
