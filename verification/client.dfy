/** The HTTP transport `RechargeClient`: the session's default headers, the
    retry counter over 429 and 5xx responses, redaction of the access token in
    retry log records, and extraction of the payload from a decoded body.

    The network is an oracle: the n-th request a session ever sends receives
    `replies(n)`, which is a response (status and body) or a failure before
    any response arrived. Sleeping and logging are recorded in the fields
    `slept` and `log` instead of being performed. */
module Client {
  import opened Values
  import opened Exceptions

  const TokenHeader: string := "X-Recharge-Access-Token"
  const VersionHeader: string := "X-Recharge-Version"
  const RedactedToken: string := "REDACTED"
  const DefaultMaxRetries: int := 3
  const DefaultRetryDelay: int := 10

  /** The two API versions a session can be switched to. */
  datatype Version = V2021_01 | V2021_11

  function VersionName(v: Version): string {
    match v
    case V2021_01 => "2021-01"
    case V2021_11 => "2021-11"
  }

  datatype Method = GET | POST | PUT | DELETE

  /** A response body, as `response.json()` sees it. */
  datatype Body = Decoded(json: Json) | Undecodable(text: string)

  datatype Response = Response(status: int, body: Body)

  /** What one send produces: a response, or a `RequestException` raised
      before any response was obtained. */
  datatype Reply = Answered(response: Response) | NoResponse

  /** Statuses that go to `_retry`: rate limiting and server errors. */
  predicate Retryable(status: int) {
    status == 429 || status >= 500
  }

  /** Statuses for which `raise_for_status` raises. */
  predicate ErrorStatus(status: int) {
    400 <= status < 600
  }

  /** The headers the constructor adds to the session. */
  function DefaultHeaders(accessToken: string): map<string, string> {
    map["Accept" := "application/json",
        "Content-Type" := "application/json",
        TokenHeader := accessToken]
  }

  /** `str.lower` on a header name (header names are ASCII). */
  function Lower(name: string): (r: string)
    ensures |r| == |name|
  {
    seq(|name|, i requires 0 <= i < |name| => LowerChar(name[i]))
  }

  function LowerChar(c: char): char {
    if 'A' <= c <= 'Z' then (c as int + 32) as char else c
  }

  /** The header names of `extra`, compared case-insensitively. */
  function LowerKeys(extra: map<string, string>): set<string> {
    set k | k in extra :: Lower(k)
  }

  lemma LowerKeysOfOne(name: string, value: string)
    ensures LowerKeys(map[name := value]) == {Lower(name)}
  {
    assert Lower(name) in LowerKeys(map[name := value]);
  }

  /** `headers.update(extra)` on the case-insensitive header dict of
      `requests`: an entry of `extra` replaces every existing header whose
      name differs from it at most in case. */
  function MergeHeaders(headers: map<string, string>, extra: map<string, string>): (r: map<string, string>)
    ensures forall k :: k in extra ==> k in r && r[k] == extra[k]
    ensures forall k :: k in headers && Lower(k) !in LowerKeys(extra) ==> k in r && r[k] == headers[k]
    ensures forall k :: k in r ==> k in extra || (k in headers && Lower(k) !in LowerKeys(extra))
  {
    (map k | k in headers && Lower(k) !in LowerKeys(extra) :: headers[k]) + extra
  }

  /** The headers of the copy `_redact_auth` returns: the token header reads
      "REDACTED" whatever the capitalisation it was set with, and every other
      header is kept as it was. */
  function RedactHeaders(headers: map<string, string>): (r: map<string, string>)
    ensures TokenHeader in r && r[TokenHeader] == RedactedToken
    ensures forall k :: k in r && Lower(k) == Lower(TokenHeader) ==> r[k] == RedactedToken
    ensures forall k :: k in headers && Lower(k) != Lower(TokenHeader) ==> k in r && r[k] == headers[k]
    ensures r.Keys <= headers.Keys + {TokenHeader}
  {
    LowerKeysOfOne(TokenHeader, RedactedToken);
    MergeHeaders(headers, map[TokenHeader := RedactedToken])
  }

  /** `_extract_error_message`: the decoded body, or the raw text when the
      body does not decode. */
  function ErrorMessage(body: Body): (d: ErrorDetail)
    ensures d.JsonDetail? <==> body.Decoded?
    ensures d.JsonDetail? ==> d.json == body.json
    ensures d.TextDetail? ==> d.text == body.text
  {
    match body
    case Decoded(json) => JsonDetail(json)
    case Undecodable(text) => TextDetail(text)
  }

  /** `_extract_data`: the payload a verb method returns for a response that
      was not an error. */
  function ExtractData(body: Body, key: Option<string>, expected: Shape): (r: Result<Json>)
    // An undecodable body is a soft failure: an empty dict or list.
    ensures body.Undecodable? ==> r == Ok(EmptyOf(expected))
    // Without a key the decoded body is returned unchanged and unchecked.
    ensures body.Decoded? && key.None? ==> r == Ok(body.json)
    // With a key, only a JSON object can be searched (`.get` exists on dict only).
    ensures body.Decoded? && key.Some? && !body.json.JObject? ==> r == Err(AttributeError)
    // A present key selects its value, which must have the expected type.
    ensures body.Decoded? && key.Some? && body.json.JObject? && key.value in body.json.fields ==>
      var data := body.json.fields[key.value];
      (r.Ok? <==> HasShape(data, expected)) && (r.Ok? ==> r.value == data) &&
      (r.Err? ==> r.error == ValueError(expected, data))
    // An absent key falls back to the whole body: fine for dict, a ValueError for list.
    ensures body.Decoded? && key.Some? && body.json.JObject? && key.value !in body.json.fields ==>
      r == (if expected == Dict then Ok(body.json) else Err(ValueError(List, body.json)))
    // Whatever a key selects is of the expected type.
    ensures body.Decoded? && key.Some? && r.Ok? ==> HasShape(r.value, expected)
  {
    match body
    case Undecodable(_) => Ok(EmptyOf(expected))
    case Decoded(json) =>
      if key.None? then Ok(json)
      else if !json.JObject? then Err(AttributeError)
      else
        var data := if key.value in json.fields then json.fields[key.value] else json;
        if HasShape(data, expected) then Ok(data) else Err(ValueError(expected, data))
  }

  /** What a verb method returns once `_send` has returned or raised. */
  function Deliver(outcome: Result<Response>, key: Option<string>, expected: Shape): Result<Json> {
    match outcome
    case Err(e) => Err(e)
    case Ok(response) => ExtractData(response.body, key, expected)
  }

  /** The result of one `_send` call: what it returns or raises, the retry
      counter afterwards, and how many times the request went out. */
  datatype Run = Run(outcome: Result<Response>, retries: int, sends: nat)

  /** How many more retries the counter allows. */
  function Budget(retries: int, maxRetries: int): nat {
    if retries < maxRetries then maxRetries - retries else 0
  }

  /** `_send` and `_retry` together, starting with counter `retries` and
      with `replies(next)` as the reply to the first send. */
  function Transmit(retries: int, maxRetries: int, replies: nat -> Reply, next: nat): (run: Run)
    ensures 1 <= run.sends <= Budget(retries, maxRetries) + 1
    decreases Budget(retries, maxRetries)
  {
    match replies(next)
    case NoResponse => Run(Err(RechargeRequestException), retries, 1)
    case Answered(response) =>
      if Retryable(response.status) then
        if retries >= maxRetries then Run(Err(RechargeApiError(MaxRetriesReached)), retries, 1)
        else
          var rest := Transmit(retries + 1, maxRetries, replies, next + 1);
          Run(rest.outcome, rest.retries, rest.sends + 1)
      else
        var outcome := if ErrorStatus(response.status)
                       then Err(RechargeHttpError(ErrorMessage(response.body)))
                       else Ok(response);
        Run(outcome, 0, 1)
  }

  /** What a call to `_send` does, in closed form: it ends at the first reply
      that is not retryable, or at the first retryable one that finds the
      retry budget spent, and that last reply decides the outcome. */
  lemma {:induction false} TransmitStopsAtDecisiveReply(retries: int, maxRetries: int, replies: nat -> Reply, next: nat)
    ensures var run := Transmit(retries, maxRetries, replies, next);
      // every reply but the last one was a 429 or a 5xx
      && (forall i :: next <= i < next + run.sends - 1 ==>
            replies(i).Answered? && Retryable(replies(i).response.status))
      && match replies(next + run.sends - 1)
         case NoResponse =>
           run.outcome == Err(RechargeRequestException) &&
           run.retries == retries + run.sends - 1
         case Answered(last) =>
           if Retryable(last.status) then
             run.outcome == Err(RechargeApiError(MaxRetriesReached)) &&
             run.sends == Budget(retries, maxRetries) + 1 &&
             run.retries == (if retries < maxRetries then maxRetries else retries)
           else
             run.retries == 0 &&
             run.outcome == if ErrorStatus(last.status)
                            then Err(RechargeHttpError(ErrorMessage(last.body)))
                            else Ok(last)
    decreases Budget(retries, maxRetries)
  {
    match replies(next)
    case NoResponse =>
    case Answered(response) =>
      if Retryable(response.status) && retries < maxRetries {
        TransmitStopsAtDecisiveReply(retries + 1, maxRetries, replies, next + 1);
      }
  }

  /** `_send` exactly as the recursion unfolds in Python: a retrying frame's
      `except HTTPError` clause also catches the `RechargeHTTPError` raised by
      the frame it called. That exception was built from a message alone, so
      its `response` is None and the handler's `http_error.response.text`
      raises AttributeError instead. */
  function TransmitAsWritten(retries: int, maxRetries: int, replies: nat -> Reply, next: nat): (run: Run)
    ensures 1 <= run.sends
    decreases Budget(retries, maxRetries)
  {
    match replies(next)
    case NoResponse => Run(Err(RechargeRequestException), retries, 1)
    case Answered(response) =>
      if Retryable(response.status) then
        if retries >= maxRetries then Run(Err(RechargeApiError(MaxRetriesReached)), retries, 1)
        else
          var rest := TransmitAsWritten(retries + 1, maxRetries, replies, next + 1);
          var outcome := if rest.outcome.Err? && rest.outcome.error.RechargeHttpError?
                         then Err(AttributeError)
                         else rest.outcome;
          Run(outcome, rest.retries, rest.sends + 1)
      else
        var outcome := if ErrorStatus(response.status)
                       then Err(RechargeHttpError(ErrorMessage(response.body)))
                       else Ok(response);
        Run(outcome, 0, 1)
  }

  /** The recursion as written differs from `Transmit` in exactly one way: an
      HTTP error that follows at least one retry surfaces as AttributeError. */
  lemma {:induction false} AsWrittenLosesHttpErrorAfterRetry(retries: int, maxRetries: int, replies: nat -> Reply, next: nat)
    ensures var run := Transmit(retries, maxRetries, replies, next);
      TransmitAsWritten(retries, maxRetries, replies, next) ==
        if run.sends > 1 && run.outcome.Err? && run.outcome.error.RechargeHttpError?
        then Run(Err(AttributeError), run.retries, run.sends)
        else run
    decreases Budget(retries, maxRetries)
  {
    match replies(next)
    case NoResponse =>
    case Answered(response) =>
      if Retryable(response.status) && retries < maxRetries {
        AsWrittenLosesHttpErrorAfterRetry(retries + 1, maxRetries, replies, next + 1);
      }
  }

  /** One rate-limited reply followed by a 404: the intended outcome is a
      RechargeHTTPError carrying the body, the code as written raises
      AttributeError. */
  lemma RateLimitedThenNotFound()
    ensures var replies := (i: nat) =>
        if i == 0 then Answered(Response(429, Undecodable("")))
        else Answered(Response(404, Decoded(JObject(map[]))));
      && TransmitAsWritten(0, DefaultMaxRetries, replies, 0).outcome == Err(AttributeError)
      && Transmit(0, DefaultMaxRetries, replies, 0).outcome ==
           Err(RechargeHttpError(JsonDetail(JObject(map[]))))
  {
    var replies := (i: nat) =>
      if i == 0 then Answered(Response(429, Undecodable("")))
      else Answered(Response(404, Decoded(JObject(map[]))));
    assert Transmit(1, DefaultMaxRetries, replies, 1).outcome ==
      Err(RechargeHttpError(JsonDetail(JObject(map[]))));
    assert TransmitAsWritten(1, DefaultMaxRetries, replies, 1).outcome ==
      Err(RechargeHttpError(JsonDetail(JObject(map[]))));
  }

  /** Exactly `maxRetries - retries` retryable replies followed by a success:
      the call succeeds after using the whole budget, one send per reply, and
      leaves the counter at 0. */
  lemma {:induction false} SucceedsAfterFullBudget(retries: int, maxRetries: int, replies: nat -> Reply, next: nat)
    requires 0 <= retries <= maxRetries
    requires forall i :: next <= i < next + (maxRetries - retries) ==>
      replies(i).Answered? && Retryable(replies(i).response.status)
    requires replies(next + (maxRetries - retries)).Answered?
    requires var last := replies(next + (maxRetries - retries)).response.status;
      !Retryable(last) && !ErrorStatus(last)
    ensures Transmit(retries, maxRetries, replies, next) ==
      Run(Ok(replies(next + (maxRetries - retries)).response), 0, maxRetries - retries + 1)
    decreases maxRetries - retries
  {
    var last := next + (maxRetries - retries);
    if retries < maxRetries {
      assert replies(next).Answered? && Retryable(replies(next).response.status);
      assert next + 1 + (maxRetries - (retries + 1)) == last;
      SucceedsAfterFullBudget(retries + 1, maxRetries, replies, next + 1);
      var rest := Transmit(retries + 1, maxRetries, replies, next + 1);
      assert Transmit(retries, maxRetries, replies, next) == Run(rest.outcome, rest.retries, rest.sends + 1);
    } else {
      assert last == next;
    }
  }

  /** One more retryable reply than the budget allows: the call fails with
      "Max retries reached" after `Budget + 1` sends and the counter stays at
      the maximum. */
  lemma {:induction false} FailsWhenBudgetExhausted(retries: int, maxRetries: int, replies: nat -> Reply, next: nat)
    requires forall i :: next <= i <= next + Budget(retries, maxRetries) ==>
      replies(i).Answered? && Retryable(replies(i).response.status)
    ensures Transmit(retries, maxRetries, replies, next) ==
      Run(Err(RechargeApiError(MaxRetriesReached)),
          if retries < maxRetries then maxRetries else retries,
          Budget(retries, maxRetries) + 1)
    decreases Budget(retries, maxRetries)
  {
    if retries < maxRetries {
      FailsWhenBudgetExhausted(retries + 1, maxRetries, replies, next + 1);
    }
  }

  /** The counter is reset only on the non-retry path: after a call that
      ended in "Max retries reached", the next retryable reply on the same
      client fails at once, with a single send. */
  lemma {:induction false} ExhaustionPersists(retries: int, maxRetries: int, replies: nat -> Reply, next: nat,
                                             later: nat -> Reply, k: nat)
    requires Transmit(retries, maxRetries, replies, next).outcome == Err(RechargeApiError(MaxRetriesReached))
    requires later(k).Answered? && Retryable(later(k).response.status)
    ensures var after := Transmit(retries, maxRetries, replies, next).retries;
      Transmit(after, maxRetries, later, k) == Run(Err(RechargeApiError(MaxRetriesReached)), after, 1)
  {
    var run := Transmit(retries, maxRetries, replies, next);
    TransmitStopsAtDecisiveReply(retries, maxRetries, replies, next);
    match replies(next + run.sends - 1)
    case NoResponse =>
    case Answered(last) =>
      assert run.retries >= maxRetries;
  }

  /** `n` copies of `x` were appended to `before`. */
  ghost predicate Appended<T>(before: seq<T>, after: seq<T>, n: nat, x: T) {
    |after| == |before| + n &&
    after[..|before|] == before &&
    forall i :: |before| <= i < |after| ==> after[i] == x
  }

  lemma AppendedOneMore<T>(before: seq<T>, after: seq<T>, n: nat, x: T)
    requires Appended(before, after, n, x)
    ensures Appended(before, after + [x], n + 1, x)
  {
    assert (after + [x])[..|before|] == after[..|before|];
  }

  /** Every record from `before` on was logged for `url`, `body` and
      `headers`; a "Retrying" record carries `delay`, the other none. */
  ghost predicate LoggedFor(before: seq<LogRecord>, after: seq<LogRecord>, url: string,
                            body: Option<Payload>, headers: map<string, string>, delay: int) {
    |before| <= |after| &&
    after[..|before|] == before &&
    forall i :: |before| <= i < |after| ==> Carries(after[i], url, body, headers, delay)
  }

  predicate Carries(record: LogRecord, url: string, body: Option<Payload>,
                    headers: map<string, string>, delay: int) {
    record.url == url && record.body == body && record.headers == headers &&
    record.delay == (if record.message == Retrying then Some(delay) else None)
  }

  lemma LoggedOneMore(before: seq<LogRecord>, after: seq<LogRecord>, url: string, body: Option<Payload>,
                      headers: map<string, string>, delay: int, record: LogRecord)
    requires LoggedFor(before, after, url, body, headers, delay)
    requires Carries(record, url, body, headers, delay)
    ensures LoggedFor(before, after + [record], url, body, headers, delay)
  {
    assert (after + [record])[..|before|] == after[..|before|];
  }

  lemma LoggedTransitive(a: seq<LogRecord>, b: seq<LogRecord>, c: seq<LogRecord>, url: string,
                         body: Option<Payload>, headers: map<string, string>, delay: int)
    requires LoggedFor(a, b, url, body, headers, delay) && LoggedFor(b, c, url, body, headers, delay)
    ensures LoggedFor(a, c, url, body, headers, delay)
  {
    assert c[..|a|] == c[..|b|][..|a|];
  }

  datatype RetryMessage = Retrying | MaxRetriesMessage

  /** The structured record `_retry` logs: built from the redacted copy.
      Only "Retrying" carries a `delay`. */
  datatype LogRecord = LogRecord(message: RetryMessage, retries: int, maxRetries: int, delay: Option<int>,
                                 url: string, body: Option<Payload>, headers: map<string, string>)

  /** A prepared request: a mutable object, sent as is on every retry. The
      query string is kept apart from the URL. */
  class PreparedRequest {
    var verb: Method
    var url: string
    var query: Option<Payload>
    var headers: map<string, string>
    var body: Option<Payload>

    constructor (verb: Method, url: string, query: Option<Payload>,
                 headers: map<string, string>, body: Option<Payload>)
      ensures this.verb == verb && this.url == url && this.query == query
      ensures this.headers == headers && this.body == body
    {
      this.verb := verb;
      this.url := url;
      this.query := query;
      this.headers := headers;
      this.body := body;
    }

    /** `PreparedRequest.copy()`: a new object with the same fields. */
    method Copy() returns (c: PreparedRequest)
      ensures fresh(c)
      ensures c.verb == verb && c.url == url && c.query == query
      ensures c.headers == headers && c.body == body
    {
      c := new PreparedRequest(verb, url, query, headers, body);
    }
  }

  /** The `requests` session: its default headers, the network it talks to,
      and the requests it has sent so far. */
  class Session {
    var headers: map<string, string>
    const replies: nat -> Reply
    var sent: seq<PreparedRequest>

    constructor (replies: nat -> Reply)
      ensures headers == map[] && this.replies == replies && sent == []
    {
      headers := map[];
      this.replies := replies;
      sent := [];
    }

    /** `session.headers.update(extra)`. */
    method UpdateHeaders(extra: map<string, string>)
      modifies this`headers
      ensures headers == MergeHeaders(old(headers), extra)
    {
      headers := MergeHeaders(headers, extra);
    }

    /** `session.prepare_request`: the prepared request carries the session's
        headers as they are now. */
    method Prepare(verb: Method, url: string, query: Option<Payload>, body: Option<Payload>)
      returns (p: PreparedRequest)
      ensures fresh(p)
      ensures p.verb == verb && p.url == url && p.query == query && p.body == body
      ensures p.headers == headers
    {
      p := new PreparedRequest(verb, url, query, headers, body);
    }

    /** `session.send`: the request goes out and gets the next reply. */
    method Send(request: PreparedRequest) returns (reply: Reply)
      modifies this`sent
      ensures sent == old(sent) + [request]
      ensures reply == replies(|old(sent)|)
    {
      reply := replies(|sent|);
      sent := sent + [request];
    }
  }

  class RechargeClient {
    const maxRetries: int
    const retryDelay: int
    var retries: int
    const session: Session
    var log: seq<LogRecord>
    var slept: seq<int>

    /** The counter starts at 0 and is only incremented below `maxRetries`;
        the delay is one `time.sleep` accepts. */
    ghost predicate Valid()
      reads this
    {
      0 <= retries && (retries <= maxRetries || retries == 0) && 0 <= retryDelay
    }

    /** `__init__` with an explicit maximum, delay and session. */
    constructor (accessToken: string, maxRetries: int, retryDelay: int, session: Session)
      requires 0 <= retryDelay
      modifies session`headers
      ensures Valid()
      ensures this.maxRetries == maxRetries && this.retryDelay == retryDelay && retries == 0
      ensures this.session == session && log == [] && slept == []
      ensures session.headers == MergeHeaders(old(session.headers), DefaultHeaders(accessToken))
    {
      this.maxRetries := maxRetries;
      this.retryDelay := retryDelay;
      retries := 0;
      this.session := session;
      log := [];
      slept := [];
      new;
      session.UpdateHeaders(DefaultHeaders(accessToken));
    }

    /** The constructor called with its defaults: three retries, a delay of
        ten, and a new session, which talks to the network `replies`. */
    constructor WithDefaults(accessToken: string, replies: nat -> Reply)
      ensures Valid()
      ensures maxRetries == DefaultMaxRetries && retryDelay == DefaultRetryDelay && retries == 0
      ensures fresh(session) && session.replies == replies && session.sent == []
      ensures session.headers == DefaultHeaders(accessToken)
      ensures log == [] && slept == []
    {
      maxRetries := DefaultMaxRetries;
      retryDelay := DefaultRetryDelay;
      retries := 0;
      session := new Session(replies);
      log := [];
      slept := [];
      new;
      session.UpdateHeaders(DefaultHeaders(accessToken));
    }

    /** `_redact_auth`: a copy whose token header reads "REDACTED"; the
        request itself is not modified. */
    method RedactAuth(request: PreparedRequest) returns (redacted: PreparedRequest)
      ensures fresh(redacted)
      ensures redacted.headers == RedactHeaders(request.headers)
      ensures redacted.verb == request.verb && redacted.url == request.url
      ensures redacted.query == request.query && redacted.body == request.body
    {
      redacted := request.Copy();
      redacted.headers := RedactHeaders(redacted.headers);
    }

    /** `_retry` up to the point where it resends: with the budget spent it
        logs and gives up ("Max retries reached"), otherwise it counts one
        retry, logs and sleeps the fixed delay. Both log records are built
        from the redacted copy. */
    method Retry(request: PreparedRequest) returns (resend: bool)
      requires Valid()
      modifies this`retries, this`log, this`slept
      ensures Valid()
      ensures resend <==> old(retries) < maxRetries
      ensures retries == if resend then old(retries) + 1 else old(retries)
      ensures slept == if resend then old(slept) + [retryDelay] else old(slept)
      ensures log == old(log) + [LogRecord(if resend then Retrying else MaxRetriesMessage,
                                           retries, maxRetries, if resend then Some(retryDelay) else None,
                                           request.url, request.body, RedactHeaders(request.headers))]
    {
      var redacted := RedactAuth(request);
      if retries >= maxRetries {
        log := log + [LogRecord(MaxRetriesMessage, retries, maxRetries, None, redacted.url, redacted.body, redacted.headers)];
        return false;
      }
      retries := retries + 1;
      log := log + [LogRecord(Retrying, retries, maxRetries, Some(retryDelay), redacted.url, redacted.body, redacted.headers)];
      slept := slept + [retryDelay];
      return true;
    }

    /** One pass through `_send`: send the request once and act on the reply.
        `done` is false when `_retry` decided to send the request again, and
        `outcome` then means nothing. */
    method Attempt(request: PreparedRequest) returns (done: bool, outcome: Result<Response>)
      requires Valid()
      modifies this`retries, this`log, this`slept, session`sent
      ensures Valid()
      ensures session.sent == old(session.sent) + [request]
      ensures var run := Transmit(old(retries), maxRetries, session.replies, |old(session.sent)|);
        if done then
          && outcome == run.outcome && retries == run.retries && run.sends == 1
          && slept == old(slept)
        else
          var rest := Transmit(retries, maxRetries, session.replies, |session.sent|);
          && retries == old(retries) + 1
          && run == Run(rest.outcome, rest.retries, rest.sends + 1)
          && slept == old(slept) + [retryDelay]
      ensures |log| == |old(log)| + (if !done || outcome == Err(RechargeApiError(MaxRetriesReached)) then 1 else 0)
      ensures LoggedFor(old(log), log, request.url, request.body, RedactHeaders(request.headers), retryDelay)
    {
      var reply := session.Send(request);
      done := true;
      match reply {
        case NoResponse =>
          outcome := Err(RechargeRequestException);
        case Answered(response) =>
          if Retryable(response.status) {
            var resend := Retry(request);
            LoggedOneMore(old(log), old(log), request.url, request.body, RedactHeaders(request.headers), retryDelay, log[|log| - 1]);
            assert log == old(log) + [log[|log| - 1]];
            if resend {
              done, outcome := false, Ok(response);
            } else {
              outcome := Err(RechargeApiError(MaxRetriesReached));
            }
          } else {
            retries := 0;
            outcome := if ErrorStatus(response.status) then Err(RechargeHttpError(ErrorMessage(response.body)))
                       else Ok(response);
          }
      }
    }

    /** `_send`, with the recursion through `_retry` turned into a loop: the
        very same request object is sent again after each retry. */
    method Send(request: PreparedRequest) returns (outcome: Result<Response>)
      requires Valid()
      modifies this`retries, this`log, this`slept, session`sent
      ensures Valid()
      ensures var run := Transmit(old(retries), maxRetries, session.replies, |old(session.sent)|);
        && outcome == run.outcome
        && retries == run.retries
        && Appended(old(session.sent), session.sent, run.sends, request)
        && Appended(old(slept), slept, run.sends - 1, retryDelay)
        && |log| == |old(log)| + run.sends - 1 +
                    (if outcome == Err(RechargeApiError(MaxRetriesReached)) then 1 else 0)
      ensures LoggedFor(old(log), log, request.url, request.body, RedactHeaders(request.headers), retryDelay)
    {
      ghost var first := |session.sent|;
      ghost var total := Transmit(retries, maxRetries, session.replies, first);
      var done := false;
      outcome := Ok(Response(0, Undecodable([])));
      while !done
        invariant Valid()
        invariant first <= |session.sent|
        invariant !done ==>
          var rest := Transmit(retries, maxRetries, session.replies, |session.sent|);
          && rest.outcome == total.outcome
          && rest.retries == total.retries
          && |session.sent| - first + rest.sends == total.sends
        invariant done ==> outcome == total.outcome && retries == total.retries && |session.sent| - first == total.sends
        invariant Appended(old(session.sent), session.sent, |session.sent| - first, request)
        invariant Appended(old(slept), slept, if done then |session.sent| - first - 1 else |session.sent| - first, retryDelay)
        invariant |log| == |old(log)| + (if done then |session.sent| - first - 1 else |session.sent| - first) +
                           (if done && outcome == Err(RechargeApiError(MaxRetriesReached)) then 1 else 0)
        invariant LoggedFor(old(log), log, request.url, request.body, RedactHeaders(request.headers), retryDelay)
        decreases !done, Budget(retries, maxRetries)
      {
        ghost var sentBefore := session.sent;
        ghost var sleptBefore := slept;
        ghost var logBefore := log;
        AppendedOneMore(old(session.sent), sentBefore, |sentBefore| - first, request);
        done, outcome := Attempt(request);
        if !done {
          AppendedOneMore(old(slept), sleptBefore, |sentBefore| - first, retryDelay);
        }
        LoggedTransitive(old(log), logBefore, log, request.url, request.body, RedactHeaders(request.headers), retryDelay);
      }
    }

    /** `set_version`: every request prepared from now on carries the version
        header. */
    method SetVersion(version: Version)
      modifies session`headers
      ensures session.headers == MergeHeaders(old(session.headers), map[VersionHeader := VersionName(version)])
    {
      session.UpdateHeaders(map[VersionHeader := VersionName(version)]);
    }

    /** `_request` followed by `_extract_data`: what `get`, `post`, `put` and
        `delete` do with their arguments. One fresh request object, built
        from the session's current headers, goes out on every attempt. */
    method Call(verb: Method, url: string, query: Option<Payload>, body: Option<Payload>,
                key: Option<string>, expected: Shape)
      returns (r: Result<Json>)
      requires Valid()
      modifies this`retries, this`log, this`slept, session`sent
      ensures Valid()
      ensures var run := Transmit(old(retries), maxRetries, session.replies, |old(session.sent)|);
        && retries == run.retries
        && |session.sent| == |old(session.sent)| + run.sends
        && session.sent[..|old(session.sent)|] == old(session.sent)
        && r == Deliver(run.outcome, key, expected)
        && Appended(old(slept), slept, run.sends - 1, retryDelay)
        && |log| == |old(log)| + run.sends - 1 +
                    (if run.outcome == Err(RechargeApiError(MaxRetriesReached)) then 1 else 0)
      ensures LoggedFor(old(log), log, url, body, RedactHeaders(session.headers), retryDelay)
      ensures forall i :: |old(session.sent)| <= i < |session.sent| ==>
        && session.sent[i] == session.sent[|old(session.sent)|]
        && fresh(session.sent[i])
        && session.sent[i].verb == verb && session.sent[i].url == url
        && session.sent[i].query == query && session.sent[i].body == body
        && session.sent[i].headers == session.headers
    {
      var prepared := session.Prepare(verb, url, query, body);
      var outcome := Send(prepared);
      r := Deliver(outcome, key, expected);
    }
  }
}
