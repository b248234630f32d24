/** recharge/api/v1/webhooks.py: the 2021-01 webhook endpoints. Only
    `create` checks a scope, and derives it from the topic's resource. */
module WebhooksV1 {
  import opened Values
  import opened Exceptions
  import opened Client
  import opened Resource

  const ListKey: string := "webhooks"
  const ResourceVersion: Version := V2021_01
  const Url: string := BaseUrl + "/" + ListKey

  /** `WebhookResource(client, scopes)`: a resource whose `_url` is this module's
      `Url`, which sends with the "2021-01" version header and has no
      singular envelope key. */
  method NewResource(client: RechargeClient, scopes: seq<string>) returns (r: RechargeResource)
    requires client.Valid()
    ensures fresh(r) && r.Valid()
    ensures r.client == client && r.scopes == scopes && r.allowedEndpoints == []
    ensures r.objectListKey == Some(ListKey) && r.objectDictKey == None
    ensures r.Url() == Url
    ensures VersionName(r.version) == "2021-01"
  {
    r := new RechargeResource(client, scopes, Some(ListKey), None, ResourceVersion);
  }

  /** `WebhookTopic`: the topics a webhook can subscribe to. */
  const Topics: seq<string> := [
    "address/created", "address/updated", "async_batch/processed",
    "bundle_selection/created", "bundle_selection/updated", "bundle_selection/deleted",
    "customer/activated", "customer/created", "customer/deactivated",
    "customer/payment_method_updated", "customer/updated", "customer/deleted",
    "charge/created", "charge/failed", "charge/max_retries_reached",
    "charge/paid", "charge/refunded", "charge/uncaptured",
    "charge/upcoming", "charge/updated", "charge/deleted",
    "checkout/created", "checkout/completed", "checkout/processed",
    "checkout/updated", "onetime/created", "onetime/deleted",
    "onetime/updated", "order/cancelled", "order/created",
    "order/deleted", "order/processed", "order/payment_captured",
    "order/upcoming", "order/updated", "order/success",
    "plan/created", "plan/deleted", "plan/updated",
    "subscription/activated", "subscription/cancelled", "subscription/created",
    "subscription/deleted", "subscription/skipped", "subscription/updated",
    "subscription/unskipped", "subscription/swapped", "subscription/paused",
    "store/updated", "recharge/uninstalled"
  ]

  /** `WebhookTopicMap`: the scope needed to subscribe to a resource's topics. */
  const TopicMap: map<string, string> := map[
    "address" := "read_customers",
    "async_batch" := "read_batches",
    "bundle_selection" := "read_subscriptions",
    "customer" := "read_customers",
    "charge" := "read_orders",
    "checkout" := "read_checkouts",
    "onetime" := "read_subscriptions",
    "order" := "read_orders",
    "product" := "read_products",
    "subscription" := "read_subscriptions",
    "shop" := "store_info",
    "recharge" := "store_info"
  ]

  /** The topics whose resource has no entry in the map. */
  const UnmappedTopics: set<string> := {"plan/created", "plan/deleted", "plan/updated", "store/updated"}

  /** `topic.split("/")[0]`: everything before the first "/", or the whole
      topic when it has none. */
  function TopicPrefix(topic: string): (prefix: string)
    ensures prefix <= topic
    ensures '/' !in prefix
    ensures |prefix| < |topic| ==> topic[|prefix|] == '/'
  {
    if topic == [] || topic[0] == '/' then []
    else [topic[0]] + TopicPrefix(topic[1..])
  }

  /** `create`: the one scope the topic's resource maps to, checked under
      "POST /webhooks", then POST of the body. An unmapped resource fails
      with a KeyError before any check or request. */
  function Create(body: Payload): (r: Result<Call>)
    ensures "topic" !in body ==> r == Err(KeyError("topic"))
    ensures "topic" in body ==>
      var resource := TopicPrefix(body["topic"]);
      if resource in TopicMap
      then r == Ok(Call(Some(Guard("POST /" + ListKey, [TopicMap[resource]])), POST, Url, None, Some(body), Dict))
      else r == Err(KeyError(resource))
  {
    if "topic" !in body then Err(KeyError("topic"))
    else
      var resource := TopicPrefix(body["topic"]);
      if resource !in TopicMap then Err(KeyError(resource))
      else Ok(Call(Some(Guard("POST /" + ListKey, [TopicMap[resource]])), POST, Url, None, Some(body), Dict))
  }

  /** `get`: GET of one webhook, with no scope check. */
  function Get(webhookId: string): (c: Call)
    ensures c.guard.None? && c.verb == GET && c.url == Url + "/" + webhookId
    ensures c.query == None && c.body == None && c.expected == Dict
  {
    Call(None, GET, Url + "/" + webhookId, None, None, Dict)
  }

  /** `update` as written: it issues a DELETE of the webhook. */
  function UpdateAsWritten(webhookId: string): (c: Call)
    ensures c.guard.None? && c.url == Url + "/" + webhookId
    ensures c.query == None && c.body == None && c.expected == Dict
  {
    Call(None, DELETE, Url + "/" + webhookId, None, None, Dict)
  }

  /** `update` as the endpoint it documents (and the 2021-11 resource)
      performs it: a PUT of the webhook, with no scope check. */
  function Update(webhookId: string): (c: Call)
    ensures c.guard.None? && c.verb == PUT && c.url == Url + "/" + webhookId
    ensures c.query == None && c.body == None && c.expected == Dict
  {
    Call(None, PUT, Url + "/" + webhookId, None, None, Dict)
  }

  /** The `update` method as written deletes the webhook it was meant to update. */
  lemma UpdateAsWrittenDeletes(webhookId: string)
    ensures UpdateAsWritten(webhookId).verb == DELETE
    ensures Update(webhookId).verb == PUT
    ensures UpdateAsWritten(webhookId) != Update(webhookId)
  {
  }

  /** `list_`: GET of the collection, with no scope check. */
  function List(): (c: Call)
    ensures c.guard.None? && c.verb == GET && c.url == Url
    ensures c.query == None && c.body == None && c.expected == Dict
  {
    Call(None, GET, Url, None, None, Dict)
  }

  /** `test`: POST to the webhook's test endpoint, with no scope check. */
  function Test(webhookId: string): (c: Call)
    ensures c.guard.None? && c.verb == POST && c.url == Url + "/" + webhookId + "/test"
    ensures c.query == None && c.body == None && c.expected == Dict
  {
    Call(None, POST, Url + "/" + webhookId + "/test", None, None, Dict)
  }

  /** The resource of "resource/event" is "resource" whenever "resource"
      holds no "/". */
  lemma {:induction false} PrefixOfTopic(resource: string, event: string)
    requires '/' !in resource
    ensures TopicPrefix(resource + "/" + event) == resource
    decreases |resource|
  {
    if resource != [] {
      assert (resource + "/" + event)[1..] == resource[1..] + "/" + event;
      PrefixOfTopic(resource[1..], event);
    }
  }

  /** `create` on a topic "resource/event": it asks for the scope the
      resource maps to, and fails with a KeyError naming the resource
      exactly when the map has no entry for it. */
  lemma CreateByResource(resource: string, event: string, body: Payload)
    requires '/' !in resource
    requires "topic" in body && body["topic"] == resource + "/" + event
    ensures Create(body).Ok? <==> resource in TopicMap
    ensures Create(body).Err? ==> Create(body).error == KeyError(resource)
    ensures Create(body).Ok? ==>
      Create(body).value.guard == Some(Guard("POST /" + ListKey, [TopicMap[resource]]))
  {
    PrefixOfTopic(resource, event);
  }

  /** The declared topics include the four unmapped ones; the other
      resources named in the declared topics all have a scope. */
  lemma MappedTopicResources()
    ensures forall topic :: topic in UnmappedTopics ==> topic in Topics
    ensures forall resource :: resource in ["address", "async_batch", "bundle_selection", "customer", "charge",
                                            "checkout", "onetime", "order", "subscription", "recharge"]
              ==> resource in TopicMap
  {
  }

  /** Two resources named in the declared topics, "plan" and "store", have no
      entry in the map: subscribing to any of their topics fails before the
      scope check. */
  lemma PlanAndStoreTopicsRejected(event: string)
    ensures Create(map["topic" := "plan/" + event]) == Err(KeyError("plan"))
    ensures Create(map["topic" := "store/" + event]) == Err(KeyError("store"))
  {
    assert "plan/" + event == "plan" + "/" + event;
    assert "store/" + event == "store" + "/" + event;
    CreateByResource("plan", event, map["topic" := "plan/" + event]);
    CreateByResource("store", event, map["topic" := "store/" + event]);
  }
}
