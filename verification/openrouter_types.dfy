/** The data of the LLM gateway client: messages, sampling parameters,
    per-call options, the request payload and the provider's response. */
module OpenRouterTypes {
  import opened Wrappers

  /** A role-tagged chat message. The role is a plain string here because the
      client checks it at run time. */
  datatype ChatMessage = ChatMessage(role: string, content: string)

  /** The five sampling parameters; `None` is a field that is absent or
      `undefined`. */
  datatype ModelParams = ModelParams(
    temperature: Option<real>,
    topP: Option<real>,
    maxTokens: Option<int>,
    frequencyPenalty: Option<real>,
    presencePenalty: Option<real>)

  /** Per-call options: a model name and the five sampling parameters. */
  datatype GenerationOptions = GenerationOptions(
    model: Option<string>,
    temperature: Option<real>,
    topP: Option<real>,
    maxTokens: Option<int>,
    frequencyPenalty: Option<real>,
    presencePenalty: Option<real>)

  /** One field of a `Partial<DefaultModelParams>`: a key that is not there,
      or a key that is there (its value possibly `undefined`). */
  datatype FieldUpdate<T> = Keep | Put(value: Option<T>)

  datatype ParamsUpdate = ParamsUpdate(
    temperature: FieldUpdate<real>,
    topP: FieldUpdate<real>,
    maxTokens: FieldUpdate<int>,
    frequencyPenalty: FieldUpdate<real>,
    presencePenalty: FieldUpdate<real>)

  /** The JSON schema sent in a structured-output request. */
  datatype JsonSchema = JsonSchema(schemaType: string, additionalProperties: bool)

  /** `response_format`: `{ type: "json_schema", json_schema: {name, strict, schema} }`. */
  datatype ResponseFormat = ResponseFormat(formatType: string, name: string, strict: bool, schema: JsonSchema)

  /** The request body. The sampling parameters are spread into the body in the
      source; here they travel as one field. */
  datatype Payload = Payload(
    model: string,
    messages: seq<ChatMessage>,
    params: ModelParams,
    responseFormat: Option<ResponseFormat>)

  /** One completion; `content` is `None` when it is missing or not a
      string. */
  datatype Choice = Choice(role: string, content: Option<string>, finishReason: string)

  datatype Usage = Usage(promptTokens: nat, completionTokens: nat, totalTokens: nat)

  /** A parsed response body. `choices` is `None` when the field is
      missing. */
  datatype ChatResponse = ChatResponse(id: string, choices: Option<seq<Choice>>, usage: Option<Usage>)

  /** The client's error classes, by kind. A rate-limit error keeps the HTTP
      error that caused it. */
  datatype GatewayError =
    | NetworkError(message: string)
    | HttpError(status: int, message: string)
    | ParseError(message: string)
    | ValidationError(message: string)
    | RateLimitError(message: string, cause: GatewayError)
  {
    /** The `kind` tag every error carries. */
    function Kind(): string {
      match this
      case NetworkError(_) => "network"
      case HttpError(_, _) => "http"
      case ParseError(_) => "parse"
      case ValidationError(_) => "validation"
      case RateLimitError(_, _) => "rate_limit"
    }
  }

  /** What a public call can fail with: a gateway error, or the plain error
      message validation throws before anything is sent. */
  datatype CallError = Gateway(error: GatewayError) | InvalidMessages(message: string)

  /** What a response body parses to. `errorMessage` is the body's
      `error.message` when it is a string. */
  datatype Body = NotJson | Json(errorMessage: Option<string>, response: ChatResponse)

  /** How one `fetch` ends: it rejects, or a response arrives. Either way it
      takes `latency` milliseconds. */
  datatype FetchOutcome =
    | Rejected(latency: nat)
    | Responded(latency: nat, status: int, statusText: string, body: Body)
}
