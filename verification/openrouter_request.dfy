/** Request construction in the LLM gateway client: message validation and
    sanitisation (`sanitizeMessages`), parameter merging (`buildPayload`,
    `updateDefaults`) and the structured-output directive. */
module OpenRouterRequest {
  import opened Wrappers
  import opened Text
  import opened OpenRouterTypes
  import Redaction

  const MaxMessageLength := 50000

  predicate ValidRole(role: string) {
    role == "system" || role == "user" || role == "assistant"
  }

  /** The error `sanitizeMessages` throws for one message, if any: the checks
      run on the raw content, before anything is trimmed. */
  function MessageError(m: ChatMessage): (r: Option<string>)
    ensures r.None? <==> (m.role != "" && m.content != "" && ValidRole(m.role) && |m.content| <= MaxMessageLength)
  {
    if m.role == "" || m.content == "" then Some("Each message must have 'role' and 'content'")
    else if !ValidRole(m.role) then Some("Invalid role: " + m.role)
    else if |m.content| > MaxMessageLength then Some("Message content exceeds maximum length of 50000 characters")
    else None
  }

  /** `.replace(/\r\n/g, "\n")`: one left-to-right pass. */
  function NormalizeNewlines(s: string): (r: string)
    ensures |r| <= |s|
    decreases |s|
  {
    if |s| >= 2 && s[0] == '\r' && s[1] == '\n' then "\n" + NormalizeNewlines(s[2..])
    else if s == [] then []
    else [s[0]] + NormalizeNewlines(s[1..])
  }

  /** A text without carriage returns is left alone. */
  lemma {:induction false} NormalizeWithoutCR(s: string)
    requires forall i :: 0 <= i < |s| ==> s[i] != '\r'
    ensures NormalizeNewlines(s) == s
    decreases |s|
  {
    if s != [] {
      NormalizeWithoutCR(s[1..]);
    }
  }

  /** The content a valid message is sent with: trimmed, CRLF turned into LF,
      then filtered. */
  function SanitizeContent(content: string): string {
    Redaction.Redact(NormalizeNewlines(Trim(content)))
  }

  /** The index of the first message that fails validation, if any. */
  function FirstInvalid(ms: seq<ChatMessage>): (r: Option<nat>)
    ensures r.Some? ==> (r.value < |ms| && MessageError(ms[r.value]).Some?
                         && forall j :: 0 <= j < r.value ==> MessageError(ms[j]).None?)
    ensures r.None? ==> forall j :: 0 <= j < |ms| ==> MessageError(ms[j]).None?
  {
    if ms == [] then None
    else if MessageError(ms[0]).Some? then Some(0)
    else match FirstInvalid(ms[1..])
      case Some(k) => Some(k + 1)
      case None => None
  }

  /** The `map` of `sanitizeMessages` over a list: the first message that fails
      throws, and otherwise every message keeps its role and gets its content
      sanitised. */
  function SanitizeEach(ms: seq<ChatMessage>): (r: Result<seq<ChatMessage>, string>)
    ensures r.Failure? <==> FirstInvalid(ms).Some?
    ensures r.Failure? ==> r.error == MessageError(ms[FirstInvalid(ms).value]).value
    ensures r.Success? ==> (|r.value| == |ms|
                            && forall j :: 0 <= j < |ms| ==>
                                 r.value[j].role == ms[j].role && r.value[j].content == SanitizeContent(ms[j].content))
  {
    match FirstInvalid(ms)
    case Some(k) => Failure(MessageError(ms[k]).value)
    case None => Success(seq(|ms|, j requires 0 <= j < |ms| => ChatMessage(ms[j].role, SanitizeContent(ms[j].content))))
  }

  /** `sanitizeMessages`. */
  function SanitizeMessages(ms: seq<ChatMessage>): (r: Result<seq<ChatMessage>, string>)
    ensures ms == [] ==> r == Failure("Messages must be a non-empty array")
    ensures r.Success? <==>
      ms != [] && forall j :: 0 <= j < |ms| ==>
        ms[j].role != "" && ms[j].content != "" && ValidRole(ms[j].role) && |ms[j].content| <= MaxMessageLength
    ensures r.Success? ==> (|r.value| == |ms|
                            && forall j :: 0 <= j < |ms| ==>
                                 r.value[j].role == ms[j].role && r.value[j].content == SanitizeContent(ms[j].content))
  {
    if ms == [] then Failure("Messages must be a non-empty array") else SanitizeEach(ms)
  }

  /** Content that is only whitespace passes the checks and is sent empty. */
  lemma WhitespaceContentBecomesEmpty(content: string)
    requires content != [] && AllSpace(content)
    ensures SanitizeContent(content) == ""
  {
    TrimEmptyIffAllSpace(content);
    assert Trim(content) == [];
    Redaction.RedactWithoutSecrets([]);
  }

  /** Content that is already trimmed and holds no letters is sanitised by
      the newline pass alone. */
  lemma SanitizeLetterFree(c: string)
    requires c != [] && !IsSpace(c[0]) && !IsSpace(c[|c| - 1])
    requires forall k :: 0 <= k < |c| ==> !Redaction.IsAsciiLetter(c[k])
    requires forall k :: 0 <= k < |NormalizeNewlines(c)| ==> !Redaction.IsAsciiLetter(NormalizeNewlines(c)[k])
    ensures SanitizeContent(c) == NormalizeNewlines(c)
  {
    TrimOfTrimmed(c);
    Redaction.LetterFreeUnredacted(NormalizeNewlines(c));
  }

  lemma NormalizeCrCrLf()
    ensures NormalizeNewlines("1\r\r\n2") == "1\r\n2"
  {
    assert NormalizeNewlines("2") == "2";
    assert NormalizeNewlines("\r\n2") == "\n2";
    assert NormalizeNewlines("\r\r\n2") == "\r\n2";
  }

  lemma NormalizeCrLf()
    ensures NormalizeNewlines("1\r\n2") == "1\n2"
  {
    assert NormalizeNewlines("2") == "2";
    assert NormalizeNewlines("\r\n2") == "\n2";
  }

  /** `.replace(/\r\n/g, "\n")` is a single pass: a carriage return before a
      CRLF survives as a new CRLF, so sanitising the sanitised content changes
      it again. */
  lemma SanitizingTwiceDiffers()
    ensures SanitizeContent("1\r\r\n2") == "1\r\n2"
    ensures SanitizeContent(SanitizeContent("1\r\r\n2")) == "1\n2"
  {
    NormalizeCrCrLf();
    SanitizeLetterFree("1\r\r\n2");
    NormalizeCrLf();
    SanitizeLetterFree("1\r\n2");
  }

  // ---------------------------------------------------------------------
  // Parameters and payload
  // ---------------------------------------------------------------------

  /** The constructor's defaults: `{ temperature: 0.7 }`. */
  const InitialParams := ModelParams(Some(0.7), None, None, None, None)
  const InitialModel := "tngtech/deepseek-r1t2-chimera:free"

  function ApplyField<T>(prev: Option<T>, u: FieldUpdate<T>): Option<T> {
    match u
    case Keep => prev
    case Put(v) => v
  }

  /** `{ ...defaults, ...partialParams }`: the update overrides exactly the
      fields it names, even with `undefined`, and every other field keeps
      its old default. */
  function MergeDefaults(d: ModelParams, u: ParamsUpdate): (r: ModelParams)
    ensures u.temperature.Keep? ==> r.temperature == d.temperature
    ensures u.temperature.Put? ==> r.temperature == u.temperature.value
    ensures u.topP.Keep? ==> r.topP == d.topP
    ensures u.topP.Put? ==> r.topP == u.topP.value
    ensures u.maxTokens.Keep? ==> r.maxTokens == d.maxTokens
    ensures u.maxTokens.Put? ==> r.maxTokens == u.maxTokens.value
    ensures u.frequencyPenalty.Keep? ==> r.frequencyPenalty == d.frequencyPenalty
    ensures u.frequencyPenalty.Put? ==> r.frequencyPenalty == u.frequencyPenalty.value
    ensures u.presencePenalty.Keep? ==> r.presencePenalty == d.presencePenalty
    ensures u.presencePenalty.Put? ==> r.presencePenalty == u.presencePenalty.value
  {
    ModelParams(
      ApplyField(d.temperature, u.temperature),
      ApplyField(d.topP, u.topP),
      ApplyField(d.maxTokens, u.maxTokens),
      ApplyField(d.frequencyPenalty, u.frequencyPenalty),
      ApplyField(d.presencePenalty, u.presencePenalty))
  }

  /** Merging the same update twice is merging it once. */
  lemma MergeIdempotent(d: ModelParams, u: ParamsUpdate)
    ensures MergeDefaults(MergeDefaults(d, u), u) == MergeDefaults(d, u)
  {
  }

  /** The model a call uses: `opts?.model || defaultModel`, so an empty model
      name falls back to the default. */
  function ModelFor(defaultModel: string, opts: Option<GenerationOptions>): (r: string)
    ensures opts.Some? && opts.value.model.Some? && opts.value.model.value != "" ==> r == opts.value.model.value
    ensures !(opts.Some? && opts.value.model.Some? && opts.value.model.value != "") ==> r == defaultModel
  {
    if opts.Some? && opts.value.model.Some? && opts.value.model.value != "" then opts.value.model.value
    else defaultModel
  }

  /** The merged sampling parameters of `buildPayload`: with options, all five
      fields are copied from the options (absent ones stay absent). */
  function ParamsFor(defaults: ModelParams, opts: Option<GenerationOptions>): (r: ModelParams)
    ensures opts.None? ==> r == defaults
    ensures opts.Some? ==>
              && r.temperature == opts.value.temperature && r.topP == opts.value.topP
              && r.maxTokens == opts.value.maxTokens && r.frequencyPenalty == opts.value.frequencyPenalty
              && r.presencePenalty == opts.value.presencePenalty
  {
    match opts
    case None => defaults
    case Some(o) => ModelParams(o.temperature, o.topP, o.maxTokens, o.frequencyPenalty, o.presencePenalty)
  }

  /** The permissive schema sent with every structured request. */
  const PermissiveSchema := JsonSchema("object", true)
  const StructuredFormat := ResponseFormat("json_schema", "schema", true, PermissiveSchema)

  /** `buildPayload`: sanitise, then assemble. `withSchema` says whether a
      schema was passed. */
  function BuildPayload(defaultModel: string, defaults: ModelParams, messages: seq<ChatMessage>,
                        opts: Option<GenerationOptions>, withSchema: bool): (r: Result<Payload, string>)
    ensures r.Failure? <==> SanitizeMessages(messages).Failure?
    ensures r.Failure? ==> r.error == SanitizeMessages(messages).error
    ensures r.Success? ==> r.value.messages == SanitizeMessages(messages).value
    ensures r.Success? ==> r.value.model == ModelFor(defaultModel, opts) && r.value.params == ParamsFor(defaults, opts)
    ensures r.Success? ==> (r.value.responseFormat.Some? <==> withSchema)
    ensures r.Success? && withSchema ==> r.value.responseFormat.value == StructuredFormat
  {
    match SanitizeMessages(messages)
    case Failure(e) => Failure(e)
    case Success(sanitized) =>
      Success(Payload(ModelFor(defaultModel, opts), sanitized, ParamsFor(defaults, opts),
                      if withSchema then Some(StructuredFormat) else None))
  }

  /** Without options the sampling fields are the defaults; with any options
      object the defaults play no part, whatever they are. */
  lemma PayloadParamsSource(model: string, d1: ModelParams, d2: ModelParams, ms: seq<ChatMessage>,
                            opts: Option<GenerationOptions>, withSchema: bool)
    requires BuildPayload(model, d1, ms, opts, withSchema).Success?
    ensures opts.None? ==> BuildPayload(model, d1, ms, opts, withSchema).value.params == d1
    ensures opts.Some? ==> BuildPayload(model, d1, ms, opts, withSchema) == BuildPayload(model, d2, ms, opts, withSchema)
  {
  }

  /** A call that names a non-empty model does not depend on the instance's
      model. */
  lemma PayloadModelSource(m1: string, m2: string, d: ModelParams, ms: seq<ChatMessage>,
                           opts: Option<GenerationOptions>, withSchema: bool)
    requires opts.Some? && opts.value.model.Some? && opts.value.model.value != ""
    ensures BuildPayload(m1, d, ms, opts, withSchema) == BuildPayload(m2, d, ms, opts, withSchema)
  {
  }
}
