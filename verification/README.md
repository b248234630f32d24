# Recharge API client — a Dafny model of its core

This project models the core of `recharge-api-python`, a thin Python
wrapper around the Recharge subscription-commerce REST API.

- **`RechargeClient`** (`client.dfy`) owns a `requests` session. It has a
  retry counter that goes up on 429 and 5xx responses, and it gives up with
  "Max retries reached". It redacts the access token in the retry log
  records. It maps failures to `RechargeHTTPError`, `RechargeAPIError` and
  `RechargeRequestException`, and it pulls the payload out of a decoded
  body.
  - The mutual recursion `_send`/`_retry` is a loop in
    `RechargeClient.Send`. One pass of that loop is `RechargeClient.Attempt`.
  - `Send` is proved against the recursive specification function
    `Transmit`, and the lemmas about `Transmit` state what a call does.
  - `Transmit`, and with it every method of the class, computes the
    outcome the code evidently intends. The code as written differs in one
    case: a 4xx reply after a retry raises AttributeError (first row of
    "## Findings"). That behaviour is modelled separately, by
    `TransmitAsWritten`.
  - Header names are compared case-insensitively, as in the header dict
    of `requests`.
- **`RechargeResource`** (`resource.dfy`) is the base of every endpoint
  class. It has three parts:
  - the local scope guard (`_check_scopes`), with its cache of approved
    endpoints;
  - the choice of envelope key from the expected type;
  - the `_http_*` helpers. Each one pins the session to the resource's API
    version, then delegates to the client.
- **Endpoint methods** (`metafields_*.dfy`, `webhooks_v1.dfy`) are pure
  plans. Each returns the scope check and the request it will make, as a
  `Call`, or the `KeyError` that stops it first.
  - `RechargeResource.Invoke` carries out a plan: the scope check first,
    then the request.
  - The three copies of the metafield permission table are each proved equal
    to one independent definition, `ScopeMaps.OwnerScope`.

The network is an oracle `replies: nat -> Reply`: the n-th request the
session ever sends receives `replies(n)`. Sleeping and logging are
recorded, not performed:
- the client's `slept` field lists the delays;
- the client's `log` field lists the structured records `_retry` emits;
- the session's `sent` field lists the request objects that went out.

## Model

| member | source | states |
|---|---|---|
| `Values.EmptyOf` | recharge/client.py:196 | `expected()` is an empty dict or an empty list, of the requested type |
| `Client.MergeHeaders` | recharge/client.py:73-79 | `headers.update(extra)` on a case-insensitive dict: every entry of `extra` is set; an old header survives, unchanged, iff no entry of `extra` has its name up to case; nothing else appears |
| `Client.RedactHeaders` | recharge/client.py:84-85 | the token header reads "REDACTED", and so does every header whose name is the token header's up to case; every other header keeps its value; no new header appears besides the token header |
| `Client.ErrorMessage` | recharge/client.py:119-129 | the error detail is the decoded JSON when the body decodes, and the raw text otherwise |
| `Client.ExtractData` | recharge/client.py:183-208 | an undecodable body gives an empty dict or list; without a key the body is returned unchecked; a non-object body with a key fails; a present key's value must have the expected type (`ValueError` otherwise); an absent key falls back to the whole body, which passes only for dict |
| `Client.Transmit` | recharge/client.py:131-181 | one `_send` call sends the request at least once and at most one time more than the remaining retry budget |
| `Client.TransmitStopsAtDecisiveReply` | recharge/client.py:88-181 | every reply but the last was a 429 or 5xx; the last reply decides the outcome: no response gives `RechargeRequestException` (counter kept); a retryable reply with the budget spent gives "Max retries reached" after exactly budget+1 sends (counter at the maximum); any other reply resets the counter to 0 and gives `RechargeHTTPError` with the extracted message for a 4xx, the response otherwise (a 5xx is always retried, so it never reaches this branch) |
| `Client.SucceedsAfterFullBudget` | recharge/client.py:140-160 | exactly `max - retries` retryable replies followed by a success: the call returns that response after `max - retries + 1` sends, with the counter reset to 0 |
| `Client.FailsWhenBudgetExhausted` | recharge/client.py:91-102 | budget+1 retryable replies in a row: "Max retries reached" after budget+1 sends, counter at the maximum |
| `Client.ExhaustionPersists` | recharge/client.py:91-104 | the counter is reset only on a non-retryable reply, so after "Max retries reached" the next retryable reply on the same client fails at once, after one send |
| `Client.TransmitAsWritten` | recharge/client.py:144-172 | the recursion as the Python exception handlers execute it: it always sends at least once |
| `Client.AsWrittenLosesHttpErrorAfterRetry` | recharge/client.py:162-172 | the as-written recursion agrees with `Transmit` except for one case: an HTTP error that follows at least one retry, which surfaces as AttributeError |
| `Client.RateLimitedThenNotFound` | recharge/client.py:162-172 | concrete case: a 429 then a 404 is meant to raise `RechargeHTTPError` with the body, but raises AttributeError as written |
| `Client.RechargeClient.constructor` | recharge/client.py:59-79 | the counter starts at 0 with the given maximum and delay; the given session's headers are merged with Accept, Content-Type and the access token |
| `Client.RechargeClient.WithDefaults` | recharge/client.py:59-79 | the defaults: at most 3 retries, a delay of 10, and a new session whose headers are exactly Accept, Content-Type and the access token |
| `Client.RechargeClient.RedactAuth` | recharge/client.py:81-86 | a fresh copy of the request with redacted headers; the original request is not modified |
| `Client.RechargeClient.Retry` | recharge/client.py:88-117 | with the budget spent, it logs "Max retries reached" and does not resend; otherwise it increments the counter, logs "Retrying" with the delay and sleeps the delay; both log records carry the counter, the maximum, the url, the body and the redacted headers |
| `Client.RechargeClient.Attempt` | recharge/client.py:131-181 | one send of the request, plus the decision on its reply, agreeing with one step of `Transmit` |
| `Client.RechargeClient.Send` | recharge/client.py:131-181 | the outcome and the final counter are those of `Transmit`; the same request object is appended once per send; one delay is slept per retry; one log record per retry, plus one for "Max retries reached"; every new log record has the request url, body and redacted headers, and a "Retrying" record the delay |
| `Client.RechargeClient.SetVersion` | recharge/client.py:221-223 | the session's headers are merged with the version header, so every spelling of it is replaced; other headers are unchanged |
| `Client.RechargeClient.Call` | recharge/client.py:210-265 | one fresh request, prepared with the session's current headers and the given verb, url, query and body, goes out on every attempt; the counter is `Transmit`'s; the result is the `Transmit` outcome passed through `ExtractData`; one delay is slept per retry; one log record per retry, plus one for "Max retries reached"; every new log record has the url, the body and the redacted session headers, and a "Retrying" record the delay |
| `Resource.MissingFrom` | recharge/api/__init__.py:42-46 | the missing list is never longer than the required list |
| `Resource.MissingFromExact` | recharge/api/__init__.py:42-46 | a scope is reported missing iff it is required and not granted |
| `Resource.MissingFromConcat` | recharge/api/__init__.py:44-46 | the missing list keeps the order of the requirement: it distributes over concatenation |
| `Resource.ScopeGuard` | recharge/api/__init__.py:35-53 | passes iff the endpoint is cached, or the grant is non-empty and covers every required scope; a failure is "No scopes" or names exactly the missing scopes, and leaves the cache alone; a success caches the endpoint once; the cache never holds duplicates |
| `Resource.CachedEndpointSkipsCheck` | recharge/api/__init__.py:36-37 | once an endpoint has passed, a later check of it passes whatever the grant and the requirement |
| `Resource.CacheOnlyGrows` | recharge/api/__init__.py:35-53 | over any series of checks the cache only grows at its end and never holds an endpoint twice |
| `Resource.RechargeResource.constructor` | recharge/api/__init__.py:22-29 | keeps the client and the scopes; the cache starts empty |
| `Resource.RechargeResource.CheckScopes` | recharge/api/__init__.py:35-53 | the loop's result and the new cache are those `ScopeGuard` states |
| `Resource.RechargeResource.ResponseKey` | recharge/api/__init__.py:55-61 | dict selects the singular key, list the plural key |
| `Resource.RechargeResource.Url` | recharge/api/__init__.py:31-33 | the base url, "/", and the plural key, or "None" when the class leaves the key unset |
| `Resource.RechargeResource.Http` | recharge/api/__init__.py:63-105 | the session is switched to the resource's version, then the call is made with the envelope key for `expected`; the result, the counter, the sends, the delays and the log records are those `Call` states; one fresh request object, resent as is, carries the given verb, url, query and body |
| `Resource.RechargeResource.Invoke` | recharge/api/v1/metafields.py:95-100 | a failed lookup or a failed scope check sends nothing and leaves the headers, counter, delays and log alone; otherwise the version is set, and one fresh request object, resent as is, carries the planned verb, url, query and body, with the counter, result, delays and log records of `Transmit` |
| `ScopeMaps.OwnerScope` | recharge/api/v1/metafields.py:48-72 | a scope exists iff the owner is one of the six metafield owners and, for the store, the access is read; read scopes are read scopes and write scopes write scopes; a failure is the KeyError of the owner or of "write" |
| `MetafieldsV1.NewResource` | recharge/api/v1/metafields.py:83-89 | a 2021-01 metafield resource: its url is ".../metafields" and its requests carry version "2021-01" |
| `MetafieldsV1.ResourceScope` | recharge/api/v1/metafields.py:77-80 | the 2021-01 table's lookup equals `OwnerScope` for every owner and access kind |
| `MetafieldsV1.Create` | recharge/api/v1/metafields.py:91-100 | the write scope of the body's owner, checked under "POST /metafields", then POST of the body; a missing owner or scope fails first |
| `MetafieldsV1.Get` | recharge/api/v1/metafields.py:102-109 | the read scope of the given owner, checked under "GET /metafields/:metafield_id", then GET of the metafield |
| `MetafieldsV1.Update` | recharge/api/v1/metafields.py:111-119 | the write scope of the body's owner, checked under "PUT /metafields/:metafield_id", then PUT of the body |
| `MetafieldsV1.Delete` | recharge/api/v1/metafields.py:121-130 | the write scope of the given owner, checked under "DELETE /metafields/:metafield_id", then DELETE |
| `MetafieldsV1.List` | recharge/api/v1/metafields.py:132-140 | the read scope of the query's owner, checked under "GET /metafields", then GET with the query |
| `MetafieldsV1.Count` | recharge/api/v1/metafields.py:142-150 | the read scope of the query's owner, checked under "GET /metafields/count", then GET of the count with the query |
| `MetafieldsV1.StoreIsReadOnly` | recharge/api/v1/metafields.py:53-55 | store metafields can be read with "store_info", but every write method fails on the missing "write" key |
| `MetafieldsV2.NewResource` | recharge/api/v2/metafields.py:73-79 | a 2021-11 metafield resource: its url is ".../metafields" and its requests carry version "2021-11" |
| `MetafieldsV2.ResourceScope` | recharge/api/v2/metafields.py:67-70 | the 2021-11 table's lookup equals `OwnerScope` for every owner and access kind |
| `MetafieldsV2.Create` | recharge/api/v2/metafields.py:81-90 | as for 2021-01: write scope of the body's owner, then POST |
| `MetafieldsV2.Get` | recharge/api/v2/metafields.py:92-99 | read scope of the given owner, then GET of the metafield |
| `MetafieldsV2.Update` | recharge/api/v2/metafields.py:101-109 | write scope of the body's owner, then PUT of the body |
| `MetafieldsV2.Delete` | recharge/api/v2/metafields.py:111-120 | write scope of the given owner, then DELETE |
| `MetafieldsV2.List` | recharge/api/v2/metafields.py:122-130 | read scope of the query's owner, then GET with the query |
| `MetafieldsV2.StoreIsReadOnly` | recharge/api/v2/metafields.py:43-45 | store metafields can be read but not written |
| `MetafieldsLegacy.NewResource` | recharge/api/metafields.py:80-85 | the legacy metafield resource: its url is ".../metafields"; it sets no version, so its requests carry the inherited "2021-11" |
| `MetafieldsLegacy.ResourceScope` | recharge/api/metafields.py:74-77 | the legacy table's lookup equals `OwnerScope` for every owner and access kind |
| `MetafieldsLegacy.Create` | recharge/api/metafields.py:87-96 | write scope of the body's owner, then POST |
| `MetafieldsLegacy.Get` | recharge/api/metafields.py:98-105 | read scope of the given owner, then GET of the metafield |
| `MetafieldsLegacy.Update` | recharge/api/metafields.py:107-115 | write scope of the body's owner, then PUT of the body |
| `MetafieldsLegacy.Delete` | recharge/api/metafields.py:117-126 | write scope of the given owner, then DELETE |
| `MetafieldsLegacy.List` | recharge/api/metafields.py:128-136 | read scope of the query's owner, then GET with the query |
| `MetafieldsLegacy.Count` | recharge/api/metafields.py:138-146 | read scope of the query's owner, then GET of the count |
| `MetafieldsLegacy.StoreIsReadOnly` | recharge/api/metafields.py:50-52 | store metafields can be read but not written |
| `WebhooksV1.NewResource` | recharge/api/v1/webhooks.py:85-91 | a 2021-01 webhook resource: its url is ".../webhooks" and its requests carry version "2021-01" |
| `WebhooksV1.TopicPrefix` | recharge/api/v1/webhooks.py:97 | `topic.split("/")[0]` is a prefix of the topic without "/", and is followed by "/" when it is not the whole topic |
| `WebhooksV1.PrefixOfTopic` | recharge/api/v1/webhooks.py:97 | the resource of "resource/event" is "resource" whenever the resource holds no "/" |
| `WebhooksV1.Create` | recharge/api/v1/webhooks.py:93-101 | a body without a topic fails with KeyError("topic"); a mapped resource gives one check of its scope under "POST /webhooks", then POST of the body; an unmapped resource fails with KeyError naming it |
| `WebhooksV1.CreateByResource` | recharge/api/v1/webhooks.py:93-101 | for a topic "resource/event", `create` succeeds iff the resource is in the map, requires exactly its scope, and otherwise fails with the resource's KeyError |
| `WebhooksV1.MappedTopicResources` | recharge/api/v1/webhooks.py:5-71 | the plan and store topics are declared topics; all other resources that the declared topics name are in the map |
| `WebhooksV1.PlanAndStoreTopicsRejected` | recharge/api/v1/webhooks.py:58-71 | any "plan/…" or "store/…" topic fails with KeyError("plan") or KeyError("store") before the scope check |
| `WebhooksV1.Get` | recharge/api/v1/webhooks.py:103-107 | GET of the webhook, with no scope check; no query, no body, and a dict expected back |
| `WebhooksV1.UpdateAsWritten` | recharge/api/v1/webhooks.py:109-113 | a request to the webhook's url with no scope check (the verb as written is DELETE); no query, no body, and a dict expected back |
| `WebhooksV1.Update` | recharge/api/v1/webhooks.py:109-113 | PUT of the webhook, with no scope check; no query, no body, and a dict expected back |
| `WebhooksV1.UpdateAsWrittenDeletes` | recharge/api/v1/webhooks.py:109-113 | the method as written issues DELETE where an update is a PUT |
| `WebhooksV1.List` | recharge/api/v1/webhooks.py:115-119 | GET of the collection, with no scope check; no query, no body, and a dict expected back |
| `WebhooksV1.Test` | recharge/api/v1/webhooks.py:121-125 | POST to the webhook's test endpoint, with no scope check; no query, no body, and a dict expected back |

## Left out

- The network, the `requests` library and `Request`/`PreparedRequest`
  internals are replaced by the reply oracle and a small request object.
  Query parameters are kept beside the url, not encoded into it. The
  session's own default headers are not modelled: the model's session
  starts with no headers.
- Logging: only the two structured records `_retry` emits are recorded,
  with every field they carry: message, counter, maximum, url, body,
  redacted headers and, for "Retrying" only, the delay.
  The debug, warning and error records of `_send`, `_extract_error_message`
  and `_extract_data` are left out. Those in the HTTP-error and
  request-error paths attach the unredacted request object
  (recharge/client.py:167 and :178). No model property speaks about them.
- `time.sleep` is recorded as the delay in `slept`; no time passes.
- Client.RechargeClient.constructor: requires a non-negative `retry_delay`,
  and `Valid()` keeps it so. The source accepts any int, but on the first
  retry `time.sleep` raises ValueError for a negative delay after the
  counter was incremented and "Retrying" logged (recharge/client.py:116).
  `Client.RechargeClient.Retry` and the methods above it do not model
  that ValueError.
- Concurrency: the retry counter is shared by every call on one client.
  The model runs one call at a time.
- JSON numbers are integers and payload values are strings. Floating point
  and nested request bodies are not modelled; the code only passes them
  through.
- The `else None` branch of `_get_response_key` cannot be reached under its
  declared argument type (`dict` or `list`), so `Shape` has just those two
  cases.
- `RechargeResource.__init__`'s shared mutable default `scopes=[]` is not
  modelled; each resource gets its own scope list.
- The endpoint files recharge/api/v1/metafields.py,
  recharge/api/v2/metafields.py, recharge/api/metafields.py and
  recharge/api/v1/webhooks.py call `check_scopes` and `url`, and the
  legacy file also calls `http_*`. The base class recharge/api/__init__.py
  spells these `_check_scopes`, `_url` and `_http_*`. The model uses the
  base-class members. It does not model the AttributeError that the
  unprefixed names would raise.
- The retry machinery (`Transmit`, `RechargeClient.Send`, `Call`, `Http`,
  `Invoke`) follows the evidently intended outcome of recharge/client.py:131-181.
  It does not reproduce the AttributeError that the code as written raises
  for a 4xx after a retry. `TransmitAsWritten` models that case, and the
  first row of "## Findings" records it.
- Header names are lower-cased as ASCII. Non-ASCII header names, which
  `str.lower` would also fold, are not modelled.
- The legacy metafield resource (recharge/api/metafields.py) does not set
  `recharge_version`, so it inherits "2021-11". Its docstring links to the
  2021-01 documentation. `MetafieldsLegacy.NewResource` follows the
  inherited attribute.
- `WebhookTopicMap` has entries for "product" and "shop", but no declared
  topic names either resource. No property depends on them.
- WebhooksV1.MappedTopicResources: the model does not prove, topic by topic,
  that each of the forty-six declared topics other than the four plan/store
  ones is accepted by `create`. Evaluating the prefix split on all
  forty-six literals at once is beyond the solver budget. Instead, the generic lemma
  `CreateByResource` and the resource-level facts carry the property.
- Pagination, the other endpoint classes (orders, customers, subscriptions
  and so on), recharge/resources.py, the model/ directory,
  recharge/__init__.py and setup.py are not part of this model.

## Findings

| source | as written | input that shows it | evidently intended | confidence | as-written member | corrected member |
|---|---|---|---|---|---|---|
| recharge/client.py:162-172 | after a retry, the retrying `_send` frame's `except HTTPError` also catches the `RechargeHTTPError` raised by the nested frame; that exception has no response, so `http_error.response.text` raises AttributeError | a 429 reply, then a 404 reply (`Client.RateLimitedThenNotFound`) | the 4xx after the retry surfaces as `RechargeHTTPError` carrying the error body, as it does without a retry | high; not executed | `Client.TransmitAsWritten` (with `Client.AsWrittenLosesHttpErrorAfterRetry`) | `Client.Transmit` |
| recharge/api/v1/webhooks.py:109-113 | `update` calls `_http_delete`, so an update deletes the webhook. This holds under the base-class naming used throughout the model: as written, line 113 first evaluates `self.url`, which the base class spells `_url`, so the call would raise AttributeError before any request | any `update(webhook_id)` call | a PUT of the webhook, as the linked "webhooks_update" endpoint documents | high; not executed | `WebhooksV1.UpdateAsWritten` (with `WebhooksV1.UpdateAsWrittenDeletes`) | `WebhooksV1.Update` |
