/** recharge/api/v2/metafields.py: the 2021-11 metafield endpoints, the
    same as the 2021-01 ones without `count`. */
module MetafieldsV2 {
  import opened Values
  import opened Exceptions
  import opened Client
  import opened Resource
  import opened ScopeMaps

  const ListKey: string := "metafields"
  /** The class sets `recharge_version` to "2021-11". */
  const ResourceVersion: Version := V2021_11
  const Url: string := BaseUrl + "/" + ListKey

  /** `MetafieldResource(client, scopes)`: a resource whose `_url` is this module's
      `Url`, which sends with the "2021-11" version header and has no
      singular envelope key. */
  method NewResource(client: RechargeClient, scopes: seq<string>) returns (r: RechargeResource)
    requires client.Valid()
    ensures fresh(r) && r.Valid()
    ensures r.client == client && r.scopes == scopes && r.allowedEndpoints == []
    ensures r.objectListKey == Some(ListKey) && r.objectDictKey == None
    ensures r.Url() == Url
    ensures VersionName(r.version) == "2021-11"
  {
    r := new RechargeResource(client, scopes, Some(ListKey), None, ResourceVersion);
  }

  /** `MetafieldOwnerResourceScopeMap`. */
  const OwnerResourceScopeMap: map<string, map<string, string>> := map[
    "address" := map["read" := "read_customers", "write" := "write_customers"],
    "store" := map["read" := "store_info"],
    "customer" := map["read" := "read_customers", "write" := "write_customers"],
    "subscription" := map["read" := "read_subscriptions", "write" := "write_subscriptions"],
    "order" := map["read" := "read_orders", "write" := "write_orders"],
    "charge" := map["read" := "read_orders", "write" := "write_orders"]
  ]

  /** `resource_scope`: the table grants exactly the scopes `OwnerScope` states. */
  function ResourceScope(owner: string, kind: ScopeType): (r: Result<string>)
    ensures r == OwnerScope(owner, kind)
  {
    Lookup(OwnerResourceScopeMap, owner, kind)
  }

  function ScopeOf(owner: Result<string>, kind: ScopeType): Result<string> {
    match owner
    case Err(e) => Err(e)
    case Ok(o) => ResourceScope(o, kind)
  }

  /** `create`: the write scope of `body["owner_resource"]`, then POST. */
  function Create(body: Payload): (r: Result<Call>)
    ensures PlannedAs(r, OwnerOf(body), Write, "POST /" + ListKey, POST, Url, None, Some(body))
  {
    Checked(ScopeOf(OwnerOf(body), Write), "POST /" + ListKey, POST, Url, None, Some(body))
  }

  /** `get`: the read scope of the given owner, then GET of the metafield. */
  function Get(metafieldId: string, owner: string): (r: Result<Call>)
    ensures PlannedAs(r, Ok(owner), Read, "GET /" + ListKey + "/:metafield_id",
                      GET, Url + "/" + metafieldId, None, None)
  {
    Checked(ResourceScope(owner, Read), "GET /" + ListKey + "/:metafield_id",
            GET, Url + "/" + metafieldId, None, None)
  }

  /** `update`: the write scope of `body["owner_resource"]`, then PUT. */
  function Update(metafieldId: string, body: Payload): (r: Result<Call>)
    ensures PlannedAs(r, OwnerOf(body), Write, "PUT /" + ListKey + "/:metafield_id",
                      PUT, Url + "/" + metafieldId, None, Some(body))
  {
    Checked(ScopeOf(OwnerOf(body), Write), "PUT /" + ListKey + "/:metafield_id",
            PUT, Url + "/" + metafieldId, None, Some(body))
  }

  /** `delete`: the write scope of the given owner, then DELETE. */
  function Delete(metafieldId: string, owner: string): (r: Result<Call>)
    ensures PlannedAs(r, Ok(owner), Write, "DELETE /" + ListKey + "/:metafield_id",
                      DELETE, Url + "/" + metafieldId, None, None)
  {
    Checked(ResourceScope(owner, Write), "DELETE /" + ListKey + "/:metafield_id",
            DELETE, Url + "/" + metafieldId, None, None)
  }

  /** `list_`: the read scope of `query["owner_resource"]`, then GET with the query. */
  function List(query: Payload): (r: Result<Call>)
    ensures PlannedAs(r, OwnerOf(query), Read, "GET /" + ListKey, GET, Url, Some(query), None)
  {
    Checked(ScopeOf(OwnerOf(query), Read), "GET /" + ListKey, GET, Url, Some(query), None)
  }

  /** The store's metafields can be read but not written: every write
      method fails on the missing "write" key before any check or request. */
  lemma StoreIsReadOnly(metafieldId: string, body: Payload)
    requires OwnerOf(body) == Ok("store")
    ensures Create(body) == Err(KeyError("write"))
    ensures Update(metafieldId, body) == Err(KeyError("write"))
    ensures Delete(metafieldId, "store") == Err(KeyError("write"))
    ensures Get(metafieldId, "store").Ok?
    ensures Get(metafieldId, "store").value.guard == Some(Guard("GET /" + ListKey + "/:metafield_id", ["store_info"]))
  {
  }
}
