/** What the three copies of the metafield permission table have in common:
    `resource_scope(owner, kind)` is the two-level lookup `table[owner][kind]`,
    and every copy grants the same scopes. `OwnerScope` states those scopes
    owner by owner, independently of any table. */
module ScopeMaps {
  import opened Values
  import opened Exceptions
  import opened Client
  import opened Resource

  /** `ScopeType`: "read" or "write". */
  datatype ScopeType = Read | Write

  function KindName(kind: ScopeType): string {
    match kind
    case Read => "read"
    case Write => "write"
  }

  /** The owner resources a metafield can belong to. */
  const MetafieldOwners: set<string> := {"address", "store", "customer", "subscription", "order", "charge"}

  const ReadScopes: set<string> := {"read_customers", "read_subscriptions", "read_orders", "store_info"}
  const WriteScopes: set<string> := {"write_customers", "write_subscriptions", "write_orders"}

  /** `table[owner][kind]`: a KeyError names the first key that is absent. */
  function Lookup(table: map<string, map<string, string>>, owner: string, kind: ScopeType): Result<string> {
    if owner !in table then Err(KeyError(owner))
    else if KindName(kind) !in table[owner] then Err(KeyError(KindName(kind)))
    else Ok(table[owner][KindName(kind)])
  }

  /** The scope a metafield of `owner` needs for `kind` access: addresses
      and customers use the customer scopes, orders and charges the order
      scopes, subscriptions the subscription scopes, and the store can only
      be read, with "store_info". */
  function OwnerScope(owner: string, kind: ScopeType): (r: Result<string>)
    ensures r.Ok? <==> owner in MetafieldOwners && (owner != "store" || kind == Read)
    ensures r.Ok? && kind == Read ==> r.value in ReadScopes
    ensures r.Ok? && kind == Write ==> r.value in WriteScopes
    ensures r.Err? ==> r.error == KeyError(if owner in MetafieldOwners then "write" else owner)
  {
    if owner == "address" || owner == "customer" then
      Ok(if kind == Read then "read_customers" else "write_customers")
    else if owner == "order" || owner == "charge" then
      Ok(if kind == Read then "read_orders" else "write_orders")
    else if owner == "subscription" then
      Ok(if kind == Read then "read_subscriptions" else "write_subscriptions")
    else if owner == "store" then
      if kind == Read then Ok("store_info") else Err(KeyError("write"))
    else Err(KeyError(owner))
  }

  /** `body["owner_resource"]` or `query["owner_resource"]`. */
  function OwnerOf(p: Payload): Result<string> {
    if "owner_resource" in p then Ok(p["owner_resource"]) else Err(KeyError("owner_resource"))
  }

  /** A call guarded by the one scope `scope`, or the lookup failure that
      stops the method before any check or request. */
  function Checked(scope: Result<string>, endpoint: string, verb: Method, url: string,
                   query: Option<Payload>, body: Option<Payload>): Result<Call>
  {
    match scope
    case Err(e) => Err(e)
    case Ok(s) => Ok(Call(Some(Guard(endpoint, [s])), verb, url, query, body, Dict))
  }

  /** What a metafield method computes, stated with `OwnerScope`: the
      failure to find the owner or its scope, or a check of exactly that
      one scope under `endpoint` followed by the request. */
  ghost predicate PlannedAs(r: Result<Call>, owner: Result<string>, kind: ScopeType, endpoint: string,
                            verb: Method, url: string, query: Option<Payload>, body: Option<Payload>)
  {
    match owner
    case Err(e) => r == Err(e)
    case Ok(o) =>
      match OwnerScope(o, kind)
      case Err(e) => r == Err(e)
      case Ok(scope) => r == Ok(Call(Some(Guard(endpoint, [scope])), verb, url, query, body, Dict))
  }
}
