/** Response handling and the retry schedule of the LLM gateway client:
    `handleResponse`, the network catch of `sendRequest`, the retry rule of
    `sendRequestWithRetry`, `throttle`, and the content checks of the public
    calls. The schedule is a function of the clock, the last send time and how
    the next sends end. */
module OpenRouterResponse {
  import opened Wrappers
  import opened Text
  import opened OpenRouterTypes

  const MaxRetries := 3
  const InitialRetryDelay := 1000
  const ThrottleMs := 1000

  /** `response.ok`. */
  predicate Ok(status: int) {
    200 <= status <= 299
  }

  /** `HTTP <status>: <statusText>`, the message of an HTTP error whose body
      carries no usable `error.message`. */
  function StatusLine(status: int, statusText: string): string {
    "HTTP " + IntToString(status) + ": " + statusText
  }

  /** One send: a rejected fetch is a network error, a non-2xx status an HTTP
      error, an unparsable 2xx body a parse error, and a parsed 2xx body is
      returned as it is. */
  function Classify(o: FetchOutcome): (r: Result<ChatResponse, GatewayError>)
    ensures r.Failure? ==> r.error.NetworkError? || r.error.HttpError? || r.error.ParseError?
    ensures o.Rejected? ==> r == Failure(NetworkError("Network request to OpenRouter failed"))
    ensures o.Responded? && !Ok(o.status) ==> r.Failure? && r.error.HttpError? && r.error.status == o.status
    ensures o.Responded? && !Ok(o.status) ==>
      r.error.message == (if o.body.Json? && o.body.errorMessage.Some? && o.body.errorMessage.value != ""
                          then o.body.errorMessage.value else StatusLine(o.status, o.statusText))
    ensures o.Responded? && Ok(o.status) && o.body.NotJson? ==>
      r == Failure(ParseError("Failed to parse JSON response from OpenRouter"))
    ensures o.Responded? && Ok(o.status) && o.body.Json? ==> r == Success(o.body.response)
  {
    match o
    case Rejected(_) => Failure(NetworkError("Network request to OpenRouter failed"))
    case Responded(_, status, statusText, body) =>
      if !Ok(status) then
        var message :=
          if body.Json? && body.errorMessage.Some? && body.errorMessage.value != "" then body.errorMessage.value
          else StatusLine(status, statusText);
        Failure(HttpError(status, message))
      else if body.NotJson? then Failure(ParseError("Failed to parse JSON response from OpenRouter"))
      else Success(body.response)
  }

  /** An empty `error.message` is falsy, so the status line is used instead. */
  lemma EmptyErrorMessageFallsBack(latency: nat, status: int, statusText: string, resp: ChatResponse)
    requires !Ok(status)
    ensures Classify(Responded(latency, status, statusText, Json(Some(""), resp)))
         == Failure(HttpError(status, StatusLine(status, statusText)))
  {
  }

  /** The errors `sendRequestWithRetry` tries again: 429, any status from 500
      up, and network failures. */
  predicate Retryable(e: GatewayError) {
    (e.HttpError? && (e.status == 429 || e.status >= 500)) || e.NetworkError?
  }

  /** `Math.pow(2, attempt - 1)` for the attempts there can be. */
  const Doublings: seq<nat> := [1, 2, 4]

  /** The wait after failed attempt `attempt` (counted from 1). */
  function Backoff(attempt: nat): (r: nat)
    requires 1 <= attempt <= MaxRetries
    ensures r >= InitialRetryDelay
  {
    InitialRetryDelay * Doublings[attempt - 1]
  }

  /** The backoff is exponential: the initial delay after the first failed
      attempt, doubling with each further one. */
  lemma BackoffDoubles(attempt: nat)
    requires 1 <= attempt <= MaxRetries
    ensures attempt == 1 ==> Backoff(attempt) == InitialRetryDelay
    ensures attempt > 1 ==> Backoff(attempt) == 2 * Backoff(attempt - 1)
  {
  }

  /** The error a retryable failure surfaces as once the attempts are used
      up: a 429 becomes a rate-limit error that keeps it as its cause. */
  function Exhausted(e: GatewayError): (r: GatewayError)
    ensures e.HttpError? && e.status == 429 ==> r == RateLimitError("Rate limit exceeded after 3 attempts", e)
    ensures !(e.HttpError? && e.status == 429) ==> r == e
  {
    if e.HttpError? && e.status == 429 then RateLimitError("Rate limit exceeded after 3 attempts", e) else e
  }

  /** The time `throttle` lets a send go: at least `ThrottleMs` after the last
      one, and no earlier than now. */
  function Throttled(now: nat, last: int): (r: nat)
    ensures r >= now && r >= last + ThrottleMs
    ensures now - last >= ThrottleMs ==> r == now
  {
    if now - last < ThrottleMs then last + ThrottleMs else now
  }

  /** The result of a run of attempts, the times of its sends and the clock
      when it ends. */
  datatype Outcome = Outcome(result: Result<ChatResponse, GatewayError>, times: seq<nat>, clock: nat)

  /** How one send ended as the retry loop sees it: its classified result
      and how long the fetch took. */
  datatype Sent = Sent(result: Result<ChatResponse, GatewayError>, latency: nat)

  function SentOf(answer: FetchOutcome): Sent {
    Sent(Classify(answer), answer.latency)
  }

  /** One send never fails with a rate-limit error: only the retry loop
      makes those. */
  predicate SingleSend(s: Sent) {
    s.result.Failure? ==> !s.result.error.RateLimitError?
  }

  lemma SentOfIsSingleSend(answer: FetchOutcome)
    ensures SingleSend(SentOf(answer))
  {
  }

  /** A send that failed with an error worth retrying. */
  predicate FailedRetryably(s: Sent) {
    s.result.Failure? && Retryable(s.result.error)
  }

  /** `sendRequestWithRetry(payload, attempt)` when the clock reads `now`, the
      last send was at `last`, and the next sends end as `sent[0]`,
      `sent[1]`, ... */
  function Attempts(sent: seq<Sent>, now: nat, last: int, attempt: nat): (o: Outcome)
    requires 1 <= attempt <= MaxRetries && |sent| >= MaxRetries + 1 - attempt
    ensures 1 <= |o.times| <= MaxRetries + 1 - attempt
    ensures o.times[0] == Throttled(now, last)
    ensures o.clock >= o.times[|o.times| - 1]
    decreases MaxRetries - attempt
  {
    var t := Throttled(now, last);
    var after := t + sent[0].latency;
    match sent[0].result
    case Success(resp) => Outcome(Success(resp), [t], after)
    case Failure(e) =>
      if !Retryable(e) then Outcome(Failure(e), [t], after)
      else if attempt >= MaxRetries then Outcome(Failure(Exhausted(e)), [t], after)
      else
        var rest := Attempts(sent[1..], after + Backoff(attempt), t, attempt + 1);
        Outcome(rest.result, [t] + rest.times, rest.clock)
  }

  /** A run whose first send succeeds or fails for good is that one send. */
  lemma AttemptsDecided(sent: seq<Sent>, now: nat, last: int, attempt: nat)
    requires 1 <= attempt <= MaxRetries && |sent| >= MaxRetries + 1 - attempt
    requires !FailedRetryably(sent[0])
    ensures Attempts(sent, now, last, attempt)
         == Outcome(sent[0].result, [Throttled(now, last)], Throttled(now, last) + sent[0].latency)
  {
  }

  /** A run whose last allowed send fails retryably surfaces that failure as
      `Exhausted` turns it. */
  lemma AttemptsExhausted(sent: seq<Sent>, now: nat, last: int)
    requires |sent| >= 1 && FailedRetryably(sent[0])
    ensures Attempts(sent, now, last, MaxRetries)
         == Outcome(Failure(Exhausted(sent[0].result.error)), [Throttled(now, last)], Throttled(now, last) + sent[0].latency)
  {
  }

  /** A run whose first send fails retryably, with attempts left, goes on with
      the rest after the backoff. */
  lemma AttemptsContinue(sent: seq<Sent>, now: nat, last: int, attempt: nat, t: nat, resume: nat)
    requires 1 <= attempt < MaxRetries && |sent| >= MaxRetries + 1 - attempt
    requires FailedRetryably(sent[0])
    requires t == Throttled(now, last) && resume == t + sent[0].latency + Backoff(attempt)
    ensures var rest := Attempts(sent[1..], resume, t, attempt + 1);
      Attempts(sent, now, last, attempt) == Outcome(rest.result, [t] + rest.times, rest.clock)
  {
  }

  /** Every send but the last failed with an error worth retrying. */
  lemma {:induction false} EarlierSendsFailedRetryably(sent: seq<Sent>, now: nat, last: int, attempt: nat)
    requires 1 <= attempt <= MaxRetries && |sent| >= MaxRetries + 1 - attempt
    ensures var o := Attempts(sent, now, last, attempt);
      forall j :: 0 <= j < |o.times| - 1 ==> FailedRetryably(sent[j])
    decreases MaxRetries - attempt
  {
    var o := Attempts(sent, now, last, attempt);
    if |o.times| > 1 {
      var t := Throttled(now, last);
      var after := t + sent[0].latency;
      EarlierSendsFailedRetryably(sent[1..], after + Backoff(attempt), t, attempt + 1);
    }
  }

  /** The index of the last send of a run. */
  function LastSend(sent: seq<Sent>, now: nat, last: int, attempt: nat): (k: nat)
    requires 1 <= attempt <= MaxRetries && |sent| >= MaxRetries + 1 - attempt
    ensures k < |sent|
  {
    |Attempts(sent, now, last, attempt).times| - 1
  }

  /** A run stops at its first send that does not fail retryably, and returns
      that send's own result. */
  lemma {:induction false} StopsAtFirstDecisiveSend(sent: seq<Sent>, now: nat, last: int, attempt: nat)
    requires 1 <= attempt <= MaxRetries && |sent| >= MaxRetries + 1 - attempt
    ensures var k := LastSend(sent, now, last, attempt);
      !FailedRetryably(sent[k]) ==> Attempts(sent, now, last, attempt).result == sent[k].result
    decreases MaxRetries - attempt
  {
    if !FailedRetryably(sent[0]) {
      AttemptsDecided(sent, now, last, attempt);
    } else if attempt == MaxRetries {
      AttemptsExhausted(sent, now, last);
    } else {
      var t := Throttled(now, last);
      var resume := t + sent[0].latency + Backoff(attempt);
      StopsAtFirstDecisiveSend(sent[1..], resume, t, attempt + 1);
      AttemptsContinue(sent, now, last, attempt, t, resume);
      var k := LastSend(sent[1..], resume, t, attempt + 1);
      assert LastSend(sent, now, last, attempt) == k + 1;
      assert sent[1..][k] == sent[k + 1];
    }
  }

  /** A run whose last send failed retryably has used all its attempts, and
      returns that failure as `Exhausted` turns it. */
  lemma {:induction false} ExhaustedAfterLastAttempt(sent: seq<Sent>, now: nat, last: int, attempt: nat)
    requires 1 <= attempt <= MaxRetries && |sent| >= MaxRetries + 1 - attempt
    ensures var k := LastSend(sent, now, last, attempt);
      FailedRetryably(sent[k]) ==>
        k == MaxRetries - attempt
        && Attempts(sent, now, last, attempt).result == Failure(Exhausted(sent[k].result.error))
    decreases MaxRetries - attempt
  {
    if !FailedRetryably(sent[0]) {
      AttemptsDecided(sent, now, last, attempt);
    } else if attempt == MaxRetries {
      AttemptsExhausted(sent, now, last);
    } else {
      var t := Throttled(now, last);
      var resume := t + sent[0].latency + Backoff(attempt);
      ExhaustedAfterLastAttempt(sent[1..], resume, t, attempt + 1);
      AttemptsContinue(sent, now, last, attempt, t, resume);
      var k := LastSend(sent[1..], resume, t, attempt + 1);
      assert LastSend(sent, now, last, attempt) == k + 1;
      assert sent[1..][k] == sent[k + 1];
    }
  }

  /** A retry is never held back by the throttle: the backoff alone is at
      least `ThrottleMs`, so each retry goes out exactly the fetch latency
      plus the backoff after the send before it. */
  lemma {:induction false} RetryTimes(sent: seq<Sent>, now: nat, last: int, attempt: nat)
    requires 1 <= attempt <= MaxRetries && |sent| >= MaxRetries + 1 - attempt
    ensures var o := Attempts(sent, now, last, attempt);
      forall j :: 0 <= j < |o.times| - 1 ==>
        o.times[j + 1] == o.times[j] + sent[j].latency + Backoff(attempt + j)
    decreases MaxRetries - attempt
  {
    if !FailedRetryably(sent[0]) {
      AttemptsDecided(sent, now, last, attempt);
    } else if attempt == MaxRetries {
      AttemptsExhausted(sent, now, last);
    } else {
      var t := Throttled(now, last);
      var resume := t + sent[0].latency + Backoff(attempt);
      var o := Attempts(sent, now, last, attempt);
      var rest := Attempts(sent[1..], resume, t, attempt + 1);
      RetryTimes(sent[1..], resume, t, attempt + 1);
      AttemptsContinue(sent, now, last, attempt, t, resume);
      assert o.times == [t] + rest.times;
      forall j | 0 <= j < |o.times| - 1
        ensures o.times[j + 1] == o.times[j] + sent[j].latency + Backoff(attempt + j)
      {
        if j > 0 {
          assert o.times[j + 1] == rest.times[j] && o.times[j] == rest.times[j - 1];
          assert sent[j] == sent[1..][j - 1];
        }
      }
    }
  }

  /** An HTTP error with status 429. */
  predicate TooManyRequests(s: Sent) {
    s.result.Failure? && s.result.error.HttpError? && s.result.error.status == 429
  }

  /** A full run from the first attempt ends in a rate-limit error exactly
      when the first two sends failed retryably and the third got a 429,
      whatever the first two were. */
  lemma RateLimitIffThird429(sent: seq<Sent>, now: nat, last: int)
    requires |sent| >= MaxRetries
    requires forall j :: 0 <= j < |sent| ==> SingleSend(sent[j])
    ensures var o := Attempts(sent, now, last, 1);
      o.result.Failure? && o.result.error.RateLimitError? <==>
        FailedRetryably(sent[0]) && FailedRetryably(sent[1]) && TooManyRequests(sent[2])
  {
    var o := Attempts(sent, now, last, 1);
    EarlierSendsFailedRetryably(sent, now, last, 1);
    StopsAtFirstDecisiveSend(sent, now, last, 1);
    ExhaustedAfterLastAttempt(sent, now, last, 1);
    if FailedRetryably(sent[0]) && FailedRetryably(sent[1]) {
      assert |o.times| == 3;
    }
  }

  /** Three 429s in a row surface as a rate-limit error. */
  lemma Three429sAreRateLimited(sent: seq<Sent>, now: nat, last: int)
    requires |sent| >= MaxRetries
    requires forall j :: 0 <= j < |sent| ==> SingleSend(sent[j])
    requires TooManyRequests(sent[0]) && TooManyRequests(sent[1]) && TooManyRequests(sent[2])
    ensures Attempts(sent, now, last, 1).result
         == Failure(RateLimitError("Rate limit exceeded after 3 attempts", sent[2].result.error))
    ensures |Attempts(sent, now, last, 1).times| == 3
  {
    RateLimitIffThird429(sent, now, last);
    ExhaustedAfterLastAttempt(sent, now, last, 1);
  }

  /** Two server errors and then a success: three sends, the retries one
      and two seconds after the fetch before them ends. */
  lemma ServerErrorsThenSuccess(resp: ChatResponse)
    ensures var sent := [Sent(Failure(HttpError(500, "down")), 10), Sent(Failure(HttpError(503, "busy")), 20),
                         Sent(Success(resp), 30)];
      Attempts(sent, 5000, 0, 1) == Outcome(Success(resp), [5000, 6010, 8030], 8060)
  {
    var sent := [Sent(Failure(HttpError(500, "down")), 10), Sent(Failure(HttpError(503, "busy")), 20),
                 Sent(Success(resp), 30)];
    AttemptsDecided(sent[2..], 8030, 6010, 3);
    AttemptsContinue(sent[1..], 6010, 5000, 2, 6010, 8030);
    AttemptsContinue(sent, 5000, 0, 1, 5000, 6010);
    assert sent[1..][1..] == sent[2..];
  }

  /** A client error other than 429 ends the call after one send. */
  lemma NonRetryableSendsOnce(sent: seq<Sent>, now: nat, last: int)
    requires |sent| >= MaxRetries
    requires sent[0].result.Failure? && !Retryable(sent[0].result.error)
    ensures Attempts(sent, now, last, 1).times == [Throttled(now, last)]
    ensures Attempts(sent, now, last, 1).result == sent[0].result
  {
  }

  /** The checks the public calls make on a parsed response before using its
      first choice. */
  function ContentOf(resp: ChatResponse): (r: Result<string, GatewayError>)
    ensures (resp.choices.None? || resp.choices.value == []) <==> r == Failure(ParseError("No choices returned in response"))
    ensures r.Success? <==> resp.choices.Some? && resp.choices.value != [] && resp.choices.value[0].content.Some?
    ensures r.Success? ==> r.value == resp.choices.value[0].content.value
    ensures r.Failure? && resp.choices.Some? && resp.choices.value != [] ==> r == Failure(ParseError("Invalid content in response"))
  {
    match resp.choices
    case None => Failure(ParseError("No choices returned in response"))
    case Some(cs) =>
      if cs == [] then Failure(ParseError("No choices returned in response"))
      else match cs[0].content
        case None => Failure(ParseError("Invalid content in response"))
        case Some(c) => Success(c)
  }

  /** `validateAgainstSchema`: the schema's verdict, with its message
      prefixed on failure. */
  function ValidateAgainstSchema<J, T>(data: J, schema: J -> Result<T, string>): (r: Result<T, GatewayError>)
    ensures r.Success? <==> schema(data).Success?
    ensures r.Success? ==> r.value == schema(data).value
    ensures r.Failure? ==> r.error == ValidationError("Schema validation failed: " + schema(data).error)
  {
    match schema(data)
    case Success(v) => Success(v)
    case Failure(m) => Failure(ValidationError("Schema validation failed: " + m))
  }

  /** What `generateStructured` does with the content: parse it as JSON, then
      validate it. `parse` is `JSON.parse`, `None` where it throws. */
  function StructuredOf<J, T>(content: string, parse: string -> Option<J>, schema: J -> Result<T, string>): (r: Result<T, GatewayError>)
    ensures parse(content).None? ==> r == Failure(ParseError("Failed to parse JSON response from LLM"))
    ensures parse(content).Some? ==> r == ValidateAgainstSchema(parse(content).value, schema)
  {
    match parse(content)
    case None => Failure(ParseError("Failed to parse JSON response from LLM"))
    case Some(j) => ValidateAgainstSchema(j, schema)
  }
}
