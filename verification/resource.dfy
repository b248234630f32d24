/** `RechargeResource`, the base of every endpoint class: the local scope
    guard with its cache of approved endpoints, the choice of envelope key
    from the expected type, and the `_http_*` helpers that switch the session
    to the resource's API version before delegating to the client. */
module Resource {
  import opened Values
  import opened Exceptions
  import opened Client

  const BaseUrl: string := "https://api.rechargeapps.com"

  /** What an f-string prints for an optional class attribute. */
  function Text(s: Option<string>): string {
    match s
    case None => "None"
    case Some(v) => v
  }

  /** The `missing_scopes` list `_check_scopes` builds: the required scopes
      that were not granted, in the order they were required. */
  function MissingFrom(required: seq<string>, granted: seq<string>): (missing: seq<string>)
    ensures |missing| <= |required|
  {
    if required == [] then []
    else
      var last := required[|required| - 1];
      MissingFrom(required[..|required| - 1], granted) + (if last in granted then [] else [last])
  }

  /** A scope is reported missing exactly when it is required and not granted. */
  lemma {:induction false} MissingFromExact(required: seq<string>, granted: seq<string>)
    ensures forall s :: s in MissingFrom(required, granted) <==> s in required && s !in granted
  {
    if required != [] {
      var init := required[..|required| - 1];
      MissingFromExact(init, granted);
      assert required == init + [required[|required| - 1]];
    }
  }

  /** The missing list keeps the order of the required list: it is built
      piecewise, so it distributes over concatenation. */
  lemma {:induction false} MissingFromConcat(a: seq<string>, b: seq<string>, granted: seq<string>)
    ensures MissingFrom(a + b, granted) == MissingFrom(a, granted) + MissingFrom(b, granted)
    decreases |b|
  {
    if b == [] {
      assert a + b == a;
    } else {
      var init := b[..|b| - 1];
      assert (a + b)[..|a + b| - 1] == a + init;
      assert (a + b)[|a + b| - 1] == b[|b| - 1];
      MissingFromConcat(a, init, granted);
    }
  }

  predicate NoDuplicates(s: seq<string>) {
    forall i, j :: 0 <= i < j < |s| ==> s[i] != s[j]
  }

  /** The scope check an endpoint method asks for before its request. */
  datatype Guard = Guard(endpoint: string, required: seq<string>)

  /** The result of `_check_scopes` and the cache of approved endpoints
      afterwards. */
  datatype Guarded = Guarded(outcome: Result<()>, allowed: seq<string>)

  /** `_check_scopes` against the cache `allowed` and the token's scopes
      `granted`. */
  function ScopeGuard(allowed: seq<string>, granted: seq<string>, endpoint: string, required: seq<string>)
    : (g: Guarded)
    // a cached endpoint passes whatever is granted or required; otherwise an
    // empty grant fails, and a non-empty one passes iff it covers the requirement
    ensures g.outcome.Ok? <==>
      endpoint in allowed || (granted != [] && forall s :: s in required ==> s in granted)
    // a failure names exactly the missing scopes and leaves the cache alone
    ensures g.outcome.Err? ==>
      && g.allowed == allowed
      && g.outcome.error == RechargeApiError(
           if granted == [] then NoScopes else MissingScopes(endpoint, MissingFrom(required, granted)))
    // a success caches the endpoint, once
    ensures g.outcome.Ok? ==> g.allowed == if endpoint in allowed then allowed else allowed + [endpoint]
    ensures endpoint in g.allowed <==> g.outcome.Ok?
    ensures NoDuplicates(allowed) ==> NoDuplicates(g.allowed)
  {
    if endpoint in allowed then Guarded(Ok(()), allowed)
    else if granted == [] then Guarded(Err(RechargeApiError(NoScopes)), allowed)
    else
      var missing := MissingFrom(required, granted);
      MissingFromExact(required, granted);
      if missing != [] then
        assert missing[0] in missing;
        Guarded(Err(RechargeApiError(MissingScopes(endpoint, missing))), allowed)
      else Guarded(Ok(()), allowed + [endpoint])
  }

  /** The cache is keyed by the endpoint string alone: once an endpoint has
      passed, a later check of it passes with any grant and any requirement,
      and changes nothing. */
  lemma CachedEndpointSkipsCheck(allowed: seq<string>, granted: seq<string>, endpoint: string,
                                 required: seq<string>, laterGranted: seq<string>, laterRequired: seq<string>)
    requires ScopeGuard(allowed, granted, endpoint, required).outcome.Ok?
    ensures var cache := ScopeGuard(allowed, granted, endpoint, required).allowed;
      ScopeGuard(cache, laterGranted, endpoint, laterRequired) == Guarded(Ok(()), cache)
  {
  }

  /** The cache after a series of checks with the same grant. */
  function GuardSequence(allowed: seq<string>, granted: seq<string>, checks: seq<Guard>): seq<string>
    decreases |checks|
  {
    if checks == [] then allowed
    else
      var g := ScopeGuard(allowed, granted, checks[0].endpoint, checks[0].required);
      GuardSequence(g.allowed, granted, checks[1..])
  }

  /** Over any series of checks the cache only grows at its end and never
      holds an endpoint twice. */
  lemma {:induction false} CacheOnlyGrows(allowed: seq<string>, granted: seq<string>, checks: seq<Guard>)
    requires NoDuplicates(allowed)
    ensures var final := GuardSequence(allowed, granted, checks);
      |allowed| <= |final| && final[..|allowed|] == allowed && NoDuplicates(final)
    decreases |checks|
  {
    if checks != [] {
      var g := ScopeGuard(allowed, granted, checks[0].endpoint, checks[0].required);
      CacheOnlyGrows(g.allowed, granted, checks[1..]);
      var final := GuardSequence(allowed, granted, checks);
      assert final == GuardSequence(g.allowed, granted, checks[1..]);
      assert final[..|allowed|] == final[..|g.allowed|][..|allowed|];
    }
  }

  /** What an endpoint method asks of its resource: an optional scope
      check, then one `_http_*` call. */
  datatype Call = Call(guard: Option<Guard>, verb: Method, url: string,
                       query: Option<Payload>, body: Option<Payload>, expected: Shape)

  class RechargeResource {
    const client: RechargeClient
    const scopes: seq<string>
    var allowedEndpoints: seq<string>
    // class attributes of the endpoint class
    const objectListKey: Option<string>
    const objectDictKey: Option<string>
    const version: Version

    ghost predicate Valid()
      reads this, client
    {
      NoDuplicates(allowedEndpoints) && client.Valid()
    }

    constructor (client: RechargeClient, scopes: seq<string>,
                 objectListKey: Option<string>, objectDictKey: Option<string>, version: Version)
      requires client.Valid()
      ensures Valid()
      ensures this.client == client && this.scopes == scopes && allowedEndpoints == []
      ensures this.objectListKey == objectListKey && this.objectDictKey == objectDictKey
      ensures this.version == version
    {
      this.client := client;
      this.scopes := scopes;
      allowedEndpoints := [];
      this.objectListKey := objectListKey;
      this.objectDictKey := objectDictKey;
      this.version := version;
    }

    /** `_url`: the base url and the plural key, which the f-string prints
        as "None" when the class leaves it unset. */
    function Url(): (u: string)
      reads this
      ensures objectListKey.Some? ==> u == BaseUrl + "/" + objectListKey.value
      ensures objectListKey.None? ==> u == BaseUrl + "/None"
    {
      BaseUrl + "/" + Text(objectListKey)
    }

    /** `_check_scopes`: the loop collects the missing scopes in order. */
    method CheckScopes(endpoint: string, required: seq<string>) returns (outcome: Result<()>)
      requires Valid()
      modifies this`allowedEndpoints
      ensures Valid()
      ensures var g := ScopeGuard(old(allowedEndpoints), scopes, endpoint, required);
        outcome == g.outcome && allowedEndpoints == g.allowed
    {
      if endpoint in allowedEndpoints {
        return Ok(());
      }
      if scopes == [] {
        return Err(RechargeApiError(NoScopes));
      }
      var missing: seq<string> := [];
      for i := 0 to |required|
        invariant missing == MissingFrom(required[..i], scopes)
      {
        assert required[..i + 1][..i] == required[..i];
        if required[i] !in scopes {
          missing := missing + [required[i]];
        }
      }
      assert required[..|required|] == required;
      if missing != [] {
        return Err(RechargeApiError(MissingScopes(endpoint, missing)));
      }
      allowedEndpoints := allowedEndpoints + [endpoint];
      return Ok(());
    }

    /** `_get_response_key`: the singular envelope key for a dict, the plural
        one for a list. */
    function ResponseKey(expected: Shape): (key: Option<string>)
      ensures expected == Dict ==> key == objectDictKey
      ensures expected == List ==> key == objectListKey
    {
      match expected
      case Dict => objectDictKey
      case List => objectListKey
    }

    /** `_http_get`, `_http_post`, `_http_put` and `_http_delete`: pin the
        session to this resource's version, then send with the envelope key
        that matches `expected`. */
    method Http(verb: Method, url: string, query: Option<Payload>, body: Option<Payload>, expected: Shape)
      returns (r: Result<Json>)
      requires Valid()
      modifies client`retries, client`log, client`slept, client.session`sent, client.session`headers
      ensures Valid()
      ensures client.session.headers ==
        MergeHeaders(old(client.session.headers), map[VersionHeader := VersionName(version)])
      ensures var run := Transmit(old(client.retries), client.maxRetries, client.session.replies,
                                  |old(client.session.sent)|);
        && client.retries == run.retries
        && |client.session.sent| == |old(client.session.sent)| + run.sends
        && client.session.sent[..|old(client.session.sent)|] == old(client.session.sent)
        && r == Deliver(run.outcome, ResponseKey(expected), expected)
        && Appended(old(client.slept), client.slept, run.sends - 1, client.retryDelay)
        && |client.log| == |old(client.log)| + run.sends - 1 +
                           (if run.outcome == Err(RechargeApiError(MaxRetriesReached)) then 1 else 0)
      ensures LoggedFor(old(client.log), client.log, url, body, RedactHeaders(client.session.headers), client.retryDelay)
      ensures forall i :: |old(client.session.sent)| <= i < |client.session.sent| ==>
        && client.session.sent[i] == client.session.sent[|old(client.session.sent)|]
        && fresh(client.session.sent[i])
        && client.session.sent[i].verb == verb && client.session.sent[i].url == url
        && client.session.sent[i].query == query && client.session.sent[i].body == body
        && client.session.sent[i].headers == client.session.headers
    {
      client.SetVersion(version);
      r := client.Call(verb, url, query, body, ResponseKey(expected), expected);
    }

    /** An endpoint method's work once it has computed its call: the scope
        check, when it has one, and on success the request. A call that could
        not even be computed (a failed table lookup) fails before either. */
    method Invoke(planned: Result<Call>) returns (r: Result<Json>)
      requires Valid()
      modifies this`allowedEndpoints, client`retries, client`log, client`slept,
               client.session`sent, client.session`headers
      ensures Valid()
      // a failed lookup or a failed scope check changes nothing on the client
      ensures !Passes(planned, old(allowedEndpoints)) ==>
        && r == Err(if planned.Err? then planned.error else
                    ScopeGuard(old(allowedEndpoints), scopes, planned.value.guard.value.endpoint,
                               planned.value.guard.value.required).outcome.error)
        && client.session.sent == old(client.session.sent)
        && client.session.headers == old(client.session.headers)
        && client.retries == old(client.retries)
        && client.log == old(client.log) && client.slept == old(client.slept)
      // the cache is the one the scope check leaves behind
      ensures planned.Err? || planned.value.guard.None? ==> allowedEndpoints == old(allowedEndpoints)
      ensures planned.Ok? && planned.value.guard.Some? ==>
        allowedEndpoints == ScopeGuard(old(allowedEndpoints), scopes, planned.value.guard.value.endpoint,
                                       planned.value.guard.value.required).allowed
      // otherwise the planned request goes out, under this resource's version
      ensures Passes(planned, old(allowedEndpoints)) ==>
        var c := planned.value;
        var run := Transmit(old(client.retries), client.maxRetries, client.session.replies,
                            |old(client.session.sent)|);
        && client.session.headers ==
             MergeHeaders(old(client.session.headers), map[VersionHeader := VersionName(version)])
        && client.retries == run.retries
        && |client.session.sent| == |old(client.session.sent)| + run.sends
        && client.session.sent[..|old(client.session.sent)|] == old(client.session.sent)
        && r == Deliver(run.outcome, ResponseKey(c.expected), c.expected)
        && Appended(old(client.slept), client.slept, run.sends - 1, client.retryDelay)
        && |client.log| == |old(client.log)| + run.sends - 1 +
                           (if run.outcome == Err(RechargeApiError(MaxRetriesReached)) then 1 else 0)
        && LoggedFor(old(client.log), client.log, c.url, c.body, RedactHeaders(client.session.headers), client.retryDelay)
        && (forall i :: |old(client.session.sent)| <= i < |client.session.sent| ==>
              && client.session.sent[i] == client.session.sent[|old(client.session.sent)|]
              && fresh(client.session.sent[i])
              && client.session.sent[i].verb == c.verb && client.session.sent[i].url == c.url
              && client.session.sent[i].query == c.query && client.session.sent[i].body == c.body
              && client.session.sent[i].headers == client.session.headers)
    {
      if planned.Err? {
        return Err(planned.error);
      }
      var c := planned.value;
      if c.guard.Some? {
        var checked := CheckScopes(c.guard.value.endpoint, c.guard.value.required);
        if checked.Err? {
          return Err(checked.error);
        }
      }
      r := Http(c.verb, c.url, c.query, c.body, c.expected);
    }

    /** The plan computed and its scope check, if any, passes against the
        cache `allowed`. */
    predicate Passes(planned: Result<Call>, allowed: seq<string>)
      reads this
    {
      && planned.Ok?
      && (planned.value.guard.None? ||
          ScopeGuard(allowed, scopes, planned.value.guard.value.endpoint,
                     planned.value.guard.value.required).outcome.Ok?)
    }
  }
}
