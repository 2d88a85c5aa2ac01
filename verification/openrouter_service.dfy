/** The LLM gateway client object. It keeps the default model, the default
    sampling parameters and the time of its last send, and it throttles,
    retries and validates around each call. The network is a fixed function
    from the number of sends made so far to how that send ends; the clock moves
    only by the client's own waits, by the latency of each fetch, and by
    `Elapse` for time spent elsewhere. */
module OpenRouterService {
  import opened Wrappers
  import opened Text
  import opened OpenRouterTypes
  import opened OpenRouterRequest
  import opened OpenRouterResponse

  /** One request on the wire: when it left, its `Authorization` header and
      its body. */
  datatype SendRecord = SendRecord(time: nat, authorization: string, payload: Payload)

  const MissingKeyMessage := "OpenRouter API key is required. Please set OPENROUTER_API_KEY environment variable."

  function Authorization(apiKey: string): string {
    "Bearer " + apiKey
  }

  /** How the `n` sends after the first `next` end. */
  function Upcoming(net: nat -> FetchOutcome, next: nat, n: nat): (r: seq<Sent>)
    ensures |r| == n && forall j :: 0 <= j < n ==> r[j] == SentOf(net(next + j))
  {
    seq(n, j requires 0 <= j => SentOf(net(next + j)))
  }

  /** The records of a run of sends of one payload. */
  function Records(times: seq<nat>, authorization: string, payload: Payload): (r: seq<SendRecord>)
    ensures |r| == |times| && forall j :: 0 <= j < |times| ==> r[j] == SendRecord(times[j], authorization, payload)
  {
    seq(|times|, j requires 0 <= j < |times| => SendRecord(times[j], authorization, payload))
  }

  /** The records of a retry: the first send's record, then the records of
      the sends after it. */
  lemma RetryRecords(before: seq<SendRecord>, afterFirst: seq<SendRecord>, afterAll: seq<SendRecord>,
                     t: nat, times: seq<nat>, authorization: string, payload: Payload)
    requires afterFirst == before + [SendRecord(t, authorization, payload)]
    requires afterAll == afterFirst + Records(times, authorization, payload)
    ensures afterAll == before + Records([t] + times, authorization, payload)
  {
    assert Records([t] + times, authorization, payload)
        == [SendRecord(t, authorization, payload)] + Records(times, authorization, payload);
  }

  /** Sends go out in order, each at least `ThrottleMs` after every earlier
      one. */
  predicate Spaced(sends: seq<SendRecord>) {
    forall i, j :: 0 <= i < j < |sends| ==> sends[i].time + ThrottleMs <= sends[j].time
  }

  /** What `generateChatCompletion` returns once the retries are over. */
  function ChatResult(run: Result<ChatResponse, GatewayError>): (r: Result<string, CallError>)
    ensures run.Failure? ==> r == Failure(Gateway(run.error))
    ensures run.Success? && ContentOf(run.value).Failure? ==> r == Failure(Gateway(ContentOf(run.value).error))
    ensures run.Success? && ContentOf(run.value).Success? ==> r == Success(ContentOf(run.value).value)
  {
    match run
    case Failure(e) => Failure(Gateway(e))
    case Success(resp) =>
      match ContentOf(resp)
      case Failure(e) => Failure(Gateway(e))
      case Success(c) => Success(c)
  }

  /** What `generateStructured` returns once the retries are over. */
  function StructuredResult<J, T>(run: Result<ChatResponse, GatewayError>, parse: string -> Option<J>,
                                  schema: J -> Result<T, string>): (r: Result<T, CallError>)
    ensures run.Failure? ==> r == Failure(Gateway(run.error))
    ensures run.Success? && ContentOf(run.value).Failure? ==> r == Failure(Gateway(ContentOf(run.value).error))
    ensures run.Success? && ContentOf(run.value).Success? ==>
      var s := StructuredOf(ContentOf(run.value).value, parse, schema);
      (s.Success? ==> r == Success(s.value)) && (s.Failure? ==> r == Failure(Gateway(s.error)))
  {
    match ChatResult(run)
    case Failure(e) => Failure(e)
    case Success(c) =>
      match StructuredOf(c, parse, schema)
      case Failure(e) => Failure(Gateway(e))
      case Success(v) => Success(v)
  }

  class OpenRouterClient {
    const apiKey: string
    const network: nat -> FetchOutcome
    var defaultModel: string
    var defaults: ModelParams
    var lastRequestTime: int
    var clock: nat
    var sends: seq<SendRecord>

    /** The client's invariant: a last send time that is the time of the
        last request (0 before any), every request carrying the key, and no
        two requests closer than `ThrottleMs`. */
    predicate Valid()
      reads this
    {
      (sends == [] ==> lastRequestTime == 0)
      && (sends != [] ==> lastRequestTime == sends[|sends| - 1].time)
      && lastRequestTime <= clock
      && Spaced(sends)
      && (forall j :: 0 <= j < |sends| ==> sends[j].authorization == Authorization(apiKey))
    }

    constructor (key: string, model: string, params: ModelParams, net: nat -> FetchOutcome, startTime: nat)
      requires Trim(key) != ""
      ensures Valid()
      ensures apiKey == key && network == net && defaultModel == model && defaults == params
      ensures lastRequestTime == 0 && clock == startTime && sends == []
    {
      apiKey := key;
      network := net;
      defaultModel := model;
      defaults := params;
      lastRequestTime := 0;
      clock := startTime;
      sends := [];
    }

    /** `new OpenRouterService(model?, defaults?)` with the environment's key:
        it throws when the key is missing or blank, and an omitted model or
        defaults object takes the built-in one. */
    static method Create(envKey: Option<string>, model: Option<string>, params: Option<ModelParams>,
                         net: nat -> FetchOutcome, startTime: nat)
      returns (r: Result<OpenRouterClient, string>)
      ensures r.Failure? <==> envKey.None? || Trim(envKey.value) == ""
      ensures r.Failure? ==> r.error == MissingKeyMessage
      ensures r.Success? ==> fresh(r.value) && r.value.Valid() && r.value.apiKey == envKey.value
      ensures r.Success? ==> Trim(r.value.apiKey) != ""
      ensures r.Success? ==> r.value.defaultModel == model.GetOr(InitialModel)
      ensures r.Success? ==> r.value.defaults == params.GetOr(InitialParams)
      ensures r.Success? ==> r.value.network == net && r.value.clock == startTime
      ensures r.Success? ==> r.value.sends == [] && r.value.lastRequestTime == 0
    {
      if envKey.None? || Trim(envKey.value) == "" {
        return Failure(MissingKeyMessage);
      }
      var c := new OpenRouterClient(envKey.value, model.GetOr(InitialModel), params.GetOr(InitialParams), net, startTime);
      return Success(c);
    }

    /** `getModel`. */
    method GetModel() returns (m: string)
      ensures m == defaultModel
    {
      m := defaultModel;
    }

    /** `setModel`: later calls without a model of their own use `name`. */
    method SetModel(name: string)
      requires Valid()
      modifies this
      ensures Valid()
      ensures defaultModel == name
      ensures defaults == old(defaults) && clock == old(clock) && sends == old(sends)
      ensures lastRequestTime == old(lastRequestTime)
    {
      defaultModel := name;
    }

    /** `updateDefaults`: a shallow merge over the current defaults. */
    method UpdateDefaults(u: ParamsUpdate)
      requires Valid()
      modifies this
      ensures Valid()
      ensures defaults == MergeDefaults(old(defaults), u)
      ensures defaultModel == old(defaultModel) && clock == old(clock) && sends == old(sends)
      ensures lastRequestTime == old(lastRequestTime)
    {
      defaults := MergeDefaults(defaults, u);
    }

    /** Time spent outside the client. */
    method Elapse(ms: nat)
      requires Valid()
      modifies this
      ensures Valid()
      ensures clock == old(clock) + ms
      ensures defaultModel == old(defaultModel) && defaults == old(defaults) && sends == old(sends)
      ensures lastRequestTime == old(lastRequestTime)
    {
      clock := clock + ms;
    }

    /** `sleep`. */
    method Sleep(ms: nat)
      modifies this
      ensures clock == old(clock) + ms
      ensures defaultModel == old(defaultModel) && defaults == old(defaults) && sends == old(sends)
      ensures lastRequestTime == old(lastRequestTime)
    {
      clock := clock + ms;
    }

    /** `throttle`: wait out what is left of `ThrottleMs` since the last
        send, then take the time as the new last send time. */
    method Throttle()
      requires lastRequestTime <= clock
      modifies this
      ensures clock == Throttled(old(clock), old(lastRequestTime)) && lastRequestTime == clock
      ensures defaultModel == old(defaultModel) && defaults == old(defaults) && sends == old(sends)
    {
      var now := clock;
      var sinceLast := now - lastRequestTime;
      if sinceLast < ThrottleMs {
        Sleep(ThrottleMs - sinceLast);
      }
      lastRequestTime := clock;
    }

    /** `sendRequest` with `handleResponse`: throttle, send, classify. */
    method SendRequest(payload: Payload) returns (r: Result<ChatResponse, GatewayError>)
      requires Valid()
      modifies this
      ensures Valid()
      ensures var t := Throttled(old(clock), old(lastRequestTime));
        sends == old(sends) + [SendRecord(t, Authorization(apiKey), payload)]
        && clock == t + network(|old(sends)|).latency
      ensures r == Classify(network(|old(sends)|))
      ensures defaultModel == old(defaultModel) && defaults == old(defaults)
    {
      Throttle();
      var answer := network(|sends|);
      sends := sends + [SendRecord(clock, Authorization(apiKey), payload)];
      clock := clock + answer.latency;
      r := Classify(answer);
    }

    /** `sendRequestWithRetry(payload, attempt)`: the run of sends is the one
        `Attempts` describes for how the next sends end, `sent`. */
    method SendRequestWithRetry(payload: Payload, attempt: nat, ghost sent: seq<Sent>)
      returns (r: Result<ChatResponse, GatewayError>)
      requires Valid() && 1 <= attempt <= MaxRetries
      requires |sent| == MaxRetries + 1 - attempt
      requires forall j :: 0 <= j < |sent| ==> sent[j] == SentOf(network(|sends| + j))
      modifies this
      decreases MaxRetries - attempt, 1
      ensures Valid()
      ensures var o := Attempts(sent, old(clock), old(lastRequestTime), attempt);
        r == o.result && clock == o.clock
        && sends == old(sends) + Records(o.times, Authorization(apiKey), payload)
      ensures defaultModel == old(defaultModel) && defaults == old(defaults)
    {
      ghost var now, last := clock, lastRequestTime;
      ghost var t := Throttled(now, last);
      assert sent[0] == SentOf(network(|sends| + 0));
      var first := SendRequest(payload);
      if first.Failure? && Retryable(first.error) && attempt < MaxRetries {
        r := RetryAfterFailure(payload, attempt, sent, now, last, old(sends));
      } else if first.Failure? && Retryable(first.error) {
        r := Failure(Exhausted(first.error));
        AttemptsExhausted(sent, now, last);
        assert sends == old(sends) + Records([t], Authorization(apiKey), payload);
      } else {
        r := first;
        AttemptsDecided(sent, now, last, attempt);
        assert sends == old(sends) + Records([t], Authorization(apiKey), payload);
      }
    }

    /** The retry branch of `sendRequestWithRetry`: after a send that failed
        in a way worth retrying, with attempts left, wait the backoff and run
        the remaining attempts. */
    method RetryAfterFailure(payload: Payload, attempt: nat, ghost sent: seq<Sent>, ghost now: nat,
                             ghost last: int, ghost before: seq<SendRecord>)
      returns (r: Result<ChatResponse, GatewayError>)
      requires Valid() && 1 <= attempt < MaxRetries
      requires |sent| == MaxRetries + 1 - attempt && FailedRetryably(sent[0])
      requires lastRequestTime == Throttled(now, last) && clock == lastRequestTime + sent[0].latency
      requires sends == before + [SendRecord(lastRequestTime, Authorization(apiKey), payload)]
      requires forall j :: 0 < j < |sent| ==> sent[j] == SentOf(network(|before| + j))
      modifies this
      decreases MaxRetries - attempt, 0
      ensures Valid()
      ensures var o := Attempts(sent, now, last, attempt);
        r == o.result && clock == o.clock && sends == before + Records(o.times, Authorization(apiKey), payload)
      ensures defaultModel == old(defaultModel) && defaults == old(defaults)
    {
      ghost var t: nat := Throttled(now, last);
      ghost var sends1 := sends;
      Sleep(Backoff(attempt));
      ghost var c1 := clock;
      assert c1 == t + sent[0].latency + Backoff(attempt);
      ghost var rest := sent[1..];
      assert forall j :: 0 <= j < |rest| ==> rest[j] == SentOf(network(|sends| + j)) by {
        forall j | 0 <= j < |rest| ensures rest[j] == SentOf(network(|sends| + j)) {
          assert rest[j] == sent[j + 1];
        }
      }
      r := SendRequestWithRetry(payload, attempt + 1, rest);
      ghost var more := Attempts(rest, c1, t, attempt + 1);
      assert r == more.result && clock == more.clock;
      assert sends == sends1 + Records(more.times, Authorization(apiKey), payload);
      AttemptsContinue(sent, now, last, attempt, t, c1);
      RetryRecords(before, sends1, sends, t, more.times, Authorization(apiKey), payload);
    }

    /** `generateChatCompletion`: build the payload (validation errors throw
        before anything is sent), run the retries, then take the first
        choice's content. */
    method GenerateChatCompletion(messages: seq<ChatMessage>, opts: Option<GenerationOptions>)
      returns (r: Result<string, CallError>)
      requires Valid()
      modifies this
      ensures Valid()
      ensures defaultModel == old(defaultModel) && defaults == old(defaults)
      ensures var p := BuildPayload(old(defaultModel), old(defaults), messages, opts, false);
        p.Failure? ==> r == Failure(InvalidMessages(p.error)) && sends == old(sends) && clock == old(clock)
      ensures var p := BuildPayload(old(defaultModel), old(defaults), messages, opts, false);
        var o := Attempts(Upcoming(network, |old(sends)|, MaxRetries), old(clock), old(lastRequestTime), 1);
        p.Success? ==> r == ChatResult(o.result) && clock == o.clock
                       && sends == old(sends) + Records(o.times, Authorization(apiKey), p.value)
    {
      var p := BuildPayload(defaultModel, defaults, messages, opts, false);
      if p.Failure? {
        return Failure(InvalidMessages(p.error));
      }
      var run := SendRequestWithRetry(p.value, 1, Upcoming(network, |sends|, MaxRetries));
      r := ChatResult(run);
    }

    /** `generateStructured`: as `GenerateChatCompletion`, with the
        structured-output directive in the payload, and the content parsed as
        JSON and checked against `schema`. */
    method GenerateStructured<J, T>(messages: seq<ChatMessage>, parse: string -> Option<J>,
                                    schema: J -> Result<T, string>, opts: Option<GenerationOptions>)
      returns (r: Result<T, CallError>)
      requires Valid()
      modifies this
      ensures Valid()
      ensures defaultModel == old(defaultModel) && defaults == old(defaults)
      ensures var p := BuildPayload(old(defaultModel), old(defaults), messages, opts, true);
        p.Failure? ==> r == Failure(InvalidMessages(p.error)) && sends == old(sends) && clock == old(clock)
      ensures var p := BuildPayload(old(defaultModel), old(defaults), messages, opts, true);
        var o := Attempts(Upcoming(network, |old(sends)|, MaxRetries), old(clock), old(lastRequestTime), 1);
        p.Success? ==> r == StructuredResult(o.result, parse, schema) && clock == o.clock
                       && sends == old(sends) + Records(o.times, Authorization(apiKey), p.value)
    {
      var p := BuildPayload(defaultModel, defaults, messages, opts, true);
      if p.Failure? {
        return Failure(InvalidMessages(p.error));
      }
      var run := SendRequestWithRetry(p.value, 1, Upcoming(network, |sends|, MaxRetries));
      r := StructuredResult(run, parse, schema);
    }
  }
}
