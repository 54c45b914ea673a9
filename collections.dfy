/**
 * `CollectionManager` (snyk/managers.py): the collections of an
 * organization over the REST API. Every operation first insists that the
 * manager was made for an organization.
 */
module Collections {
  import opened Errors
  import opened Json
  import opened Client
  import opened Managers

  const Uninitialized: string := "CollectionManager must be initialized with an Organization"

  function CollectionsPath(org: Instance): string {
    "orgs/" + org.id + "/collections"
  }

  /** `all()`: the REST page walk over the organization's collections. */
  function AllCollections(c: Config, routes: Request -> Reply, turn: Json -> Turn, instance: Option<Instance>, fuel: nat)
    : (r: Option<Exchange<seq<Json>>>)
    ensures instance.None? ==> r == Some(Exchange(Err(SnykError(Uninitialized)), []))
  {
    match instance
    case None => Some(Exchange(Err(SnykError(Uninitialized)), []))
    case Some(org) => RestPages(c, routes, turn, CollectionsPath(org), [], fuel)
  }

  /** The value under "data" of an ok reply's body. */
  function DataOf(reply: Result<Json>): (r: Result<Json>)
    ensures r.Ok? <==> reply.Ok? && reply.value.Object? && HasKey(reply.value.members, "data")
    ensures r.Ok? ==> Lookup(reply.value.members, "data") == Some(r.value)
    ensures reply.Err? ==> r == reply
  {
    var body :- reply;
    PyIndex(body, "data")
  }

  /** `get(id)`: one REST GET of the collection, and the "data" of its reply. */
  function GetCollection(c: Config, routes: Request -> Reply, instance: Option<Instance>, id: string): (r: Exchange<Json>)
    ensures instance.None? ==> r == Exchange(Err(SnykError(Uninitialized)), [])
    ensures instance.Some? ==>
              && r.sent == [GetRequest(c, CollectionsPath(instance.value) + "/" + id, [], None, true)]
              && r.outcome == DataOf(Receive(routes(r.sent[0])))
  {
    match instance
    case None => Exchange(Err(SnykError(Uninitialized)), [])
    case Some(org) =>
      var req := GetRequest(c, CollectionsPath(org) + "/" + id, [], None, true);
      Exchange(DataOf(Receive(routes(req))), [req])
  }

  /** The body `create(name)` posts. */
  function CollectionPayload(name: string): Json {
    Object([Entry("data", Object([Entry("type", Str("collection")), Entry("attributes", Object([Entry("name", Str(name))]))]))])
  }

  /** `create(name)`: one REST POST of the payload, and the "data" of its reply. */
  function CreateCollection(c: Config, routes: Request -> Reply, instance: Option<Instance>, name: string): (r: Exchange<Json>)
    ensures instance.None? ==> r == Exchange(Err(SnykError(Uninitialized)), [])
    ensures instance.Some? ==>
              && r.sent == [BodyRequest(c, POST, CollectionsPath(instance.value), Some(CollectionPayload(name)), true)]
              && r.outcome == DataOf(Receive(routes(r.sent[0])))
  {
    match instance
    case None => Exchange(Err(SnykError(Uninitialized)), [])
    case Some(org) =>
      var req := BodyRequest(c, POST, CollectionsPath(org), Some(CollectionPayload(name)), true);
      Exchange(DataOf(Receive(routes(req))), [req])
  }

  /** The walk of `all()` starts with the REST GET of the collections path, and sends nothing unscoped. */
  lemma AllCollectionsFirst(c: Config, routes: Request -> Reply, turn: Json -> Turn, instance: Option<Instance>, fuel: nat)
    requires AllCollections(c, routes, turn, instance, fuel).Some?
    ensures var w := AllCollections(c, routes, turn, instance, fuel).value;
            && (instance.None? <==> w.sent == [])
            && (instance.Some? ==> w.sent[0] == GetRequest(c, CollectionsPath(instance.value), [], None, true))
  {
  }

  /**
   * The payload is posted whole (a non-empty body is never dropped), to the
   * REST base, and carries the name under data.attributes.name.
   */
  lemma CreatePayload(c: Config, routes: Request -> Reply, org: Instance, name: string)
    ensures var req := CreateCollection(c, routes, Some(org), name).sent[0];
            && req.body == Some(CollectionPayload(name))
            && req.url == c.restApiUrl + "/" + c.cleanupPath(CollectionsPath(org))
            && req.query == VersionQuery(c, true)
    ensures var data := Lookup(CollectionPayload(name).members, "data").value;
            && data.Object?
            && Lookup(data.members, "type") == Some(Str("collection"))
            && Lookup(data.members, "attributes") == Some(Object([Entry("name", Str(name))]))
  {
  }

  /** `CollectionManager`, made for an organization or for none. */
  class CollectionManager {
    const client: SnykClient
    const instance: Option<Instance>

    constructor (client: SnykClient, instance: Option<Instance>)
      ensures this.client == client && this.instance == instance
    {
      this.client := client;
      this.instance := instance;
    }

    /** `all()`. */
    method All(tr: Transport, ghost turn: Json -> Turn, ghost fuel: nat) returns (r: Result<seq<Json>>)
      requires TurnsOf(turn, client.Settings(), tr.routes)
      requires AllCollections(client.Settings(), tr.routes, turn, instance, fuel).Some?
      modifies tr
      ensures r == AllCollections(client.Settings(), tr.routes, turn, instance, fuel).value.outcome
      ensures tr.log == old(tr.log) + AllCollections(client.Settings(), tr.routes, turn, instance, fuel).value.sent
    {
      if instance.None? {
        return Err(SnykError(Uninitialized));
      }
      r := client.GetRestPages(tr, "orgs/" + instance.value.id + "/collections", null, turn, fuel);
    }

    /** `get(id)`. */
    method Get(tr: Transport, id: string) returns (r: Result<Json>)
      modifies tr
      ensures r == GetCollection(client.Settings(), tr.routes, instance, id).outcome
      ensures tr.log == old(tr.log) + GetCollection(client.Settings(), tr.routes, instance, id).sent
    {
      if instance.None? {
        return Err(SnykError(Uninitialized));
      }
      var resp := client.Get(tr, CollectionsPath(instance.value) + "/" + id, null, None, true);
      r := DataOf(resp);
    }

    /** `create(name)`. */
    method Create(tr: Transport, name: string) returns (r: Result<Json>)
      modifies tr
      ensures r == CreateCollection(client.Settings(), tr.routes, instance, name).outcome
      ensures tr.log == old(tr.log) + CreateCollection(client.Settings(), tr.routes, instance, name).sent
    {
      if instance.None? {
        return Err(SnykError(Uninitialized));
      }
      var payload := Object([Entry("data", Object([Entry("type", Str("collection")), Entry("attributes", Object([Entry("name", Str(name))]))]))]);
      var resp := client.Post(tr, "orgs/" + instance.value.id + "/collections", payload, true);
      r := DataOf(resp);
    }
  }
}
