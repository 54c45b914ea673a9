/** `SettingManager.update` (snyk/managers.py): a project's settings, whitelisted and renamed to camel case. */
module Settings {
  import opened Errors
  import opened Json
  import opened Client
  import opened Managers
  import opened Bodies

  /** The settings `update` accepts, in the order it copies them. */
  const SettingNames: seq<string> := [
    "auto_dep_upgrade_enabled",
    "auto_dep_upgrade_ignored_dependencies",
    "auto_dep_upgrade_min_age",
    "auto_dep_upgrade_limit",
    "pull_request_fail_on_any_vulns",
    "pull_request_fail_only_for_high_severity",
    "pull_request_test_enabled",
    "pull_request_assignment",
    "pull_request_inheritance",
    "pull_request_fail_only_for_issues_with_fix",
    "auto_remediation_prs"
  ]

  /** "org/<organization>/project/<project>/settings"; a project needs its organization. */
  function SettingsPath(inst: Instance): (r: Result<string>)
    ensures r.Err? <==> inst.organization.None?
    ensures r.Ok? ==> r.value == "org/" + inst.organization.value.id + "/project/" + inst.id + "/settings"
  {
    var org :- OrganizationId(inst);
    Ok("org/" + org + "/project/" + inst.id + "/settings")
  }

  /** The body of `update(**kwargs)`, with `utils.snake_to_camel` supplied as `snakeToCamel`. */
  function SettingsBody(kwargs: seq<Entry>, snakeToCamel: string -> string): seq<Entry> {
    Whitelisted([], SettingNames, kwargs, snakeToCamel, false)
  }

  /** `update(**kwargs)`: one v1 PUT of the body; a reply that is not ok raises, any other gives True. */
  function UpdateSettings(c: Config, routes: Request -> Reply, inst: Instance, kwargs: seq<Entry>, snakeToCamel: string -> string)
    : (r: Exchange<bool>)
    ensures r.outcome.Ok? ==> r.outcome.value
    ensures inst.organization.None? ==> r == Exchange(Err(TypeError), [])
    ensures inst.organization.Some? ==>
              r.sent == [BodyRequest(c, PUT, SettingsPath(inst).value, Some(Object(SettingsBody(kwargs, snakeToCamel))), false)]
    ensures inst.organization.Some? ==>
              r.outcome == (var reply := Receive(routes(r.sent[0]));
                            if reply.Err? then Err(reply.error) else Ok(true))
  {
    match SettingsPath(inst)
    case Err(e) => Exchange(Err(e), [])
    case Ok(path) =>
      var req := BodyRequest(c, PUT, path, Some(Object(SettingsBody(kwargs, snakeToCamel))), false);
      var reply := Receive(routes(req));
      Exchange(if reply.Err? then Err(reply.error) else Ok(true), [req])
  }

  /**
   * The body holds, under its camel-case name, every accepted setting the
   * caller passed, with the value passed, and nothing else.
   */
  lemma SettingsBodyContents(kwargs: seq<Entry>, snakeToCamel: string -> string)
    requires Injective(snakeToCamel, SettingNames)
    ensures forall i :: 0 <= i < |SettingNames| ==>
              Lookup(SettingsBody(kwargs, snakeToCamel), snakeToCamel(SettingNames[i]))
              == if HasKey(kwargs, SettingNames[i]) then Lookup(kwargs, SettingNames[i]) else None
    ensures forall k :: (forall i :: 0 <= i < |SettingNames| ==> snakeToCamel(SettingNames[i]) != k) ==>
              Lookup(SettingsBody(kwargs, snakeToCamel), k) == None
  {
    forall i | 0 <= i < |SettingNames|
      ensures Lookup(SettingsBody(kwargs, snakeToCamel), snakeToCamel(SettingNames[i]))
              == if HasKey(kwargs, SettingNames[i]) then Lookup(kwargs, SettingNames[i]) else None
    {
      WhitelistedPicked([], SettingNames, kwargs, snakeToCamel, false, i);
    }
    forall k | forall i :: 0 <= i < |SettingNames| ==> snakeToCamel(SettingNames[i]) != k
      ensures Lookup(SettingsBody(kwargs, snakeToCamel), k) == None
    {
      WhitelistedOthers([], SettingNames, kwargs, snakeToCamel, false, k);
    }
  }

  /** Arguments that are not accepted settings are dropped: they change nothing. */
  lemma SettingsIgnoreOthers(kwargs: seq<Entry>, other: seq<Entry>, snakeToCamel: string -> string)
    requires forall i :: 0 <= i < |SettingNames| ==> Lookup(kwargs, SettingNames[i]) == Lookup(other, SettingNames[i])
    ensures SettingsBody(kwargs, snakeToCamel) == SettingsBody(other, snakeToCamel)
  {
    WhitelistedIgnores([], SettingNames, kwargs, other, snakeToCamel, false);
  }

  /** `SettingManager` for a project. */
  class SettingManager {
    const client: SnykClient
    const instance: Instance
    const snakeToCamel: string -> string

    constructor (client: SnykClient, instance: Instance, snakeToCamel: string -> string)
      ensures this.client == client && this.instance == instance && this.snakeToCamel == snakeToCamel
    {
      this.client := client;
      this.instance := instance;
      this.snakeToCamel := snakeToCamel;
    }

    /** `update(**kwargs)`. */
    method Update(tr: Transport, kwargs: seq<Entry>) returns (r: Result<bool>)
      modifies tr
      ensures r == UpdateSettings(client.Settings(), tr.routes, instance, kwargs, snakeToCamel).outcome
      ensures tr.log == old(tr.log) + UpdateSettings(client.Settings(), tr.routes, instance, kwargs, snakeToCamel).sent
    {
      var org := OrganizationId(instance);
      if org.Err? {
        return Err(org.error);
      }
      var path := "org/" + org.value + "/project/" + instance.id + "/settings";
      var body := Whitelist([], SettingNames, kwargs, snakeToCamel, false);
      var resp := client.Put(tr, path, Object(body), false);
      if resp.Err? {
        return Err(resp.error);
      }
      return Ok(true);
    }
  }
}
