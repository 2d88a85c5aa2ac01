# HealthyMeal core rules in Dafny

This project models the rule engines inside HealthyMeal. HealthyMeal is an
Astro/React web application in which signed-in users keep recipes and ask an
LLM for healthier versions of them. The model covers these parts:

- **The OpenRouter gateway client** (`OpenRouterService`). It validates and sanitises chat messages and redacts secrets. It assembles the request payload from instance defaults and per-call options. It sorts responses into network, http, parse, validation and rate-limit failures. It retries with exponential backoff and throttles sends to one per second.
  - The client is a class (`OpenRouterClient`). Its mutable fields are the model, the defaults, `lastRequestTime` and a clock.
  - The network is a function from the index of a send to that send's outcome. A log of the sends (time, authorization header, payload) makes spacing and retry counts observable.
- **The per-IP fixed-window rate limiter of the password-reset route.** The limiter is a class over a `map`, with its expiry sweep. The model also covers the route's choice between 429, 400 and 200, and the client-address extraction from proxy headers.
- **The route guard of the middleware.** This is the public/protected/API decision and the login redirect it builds.
- **Recipe listing, fetching and deletion.** Each is filter by owner, sort, window. The model includes their error mapping.
- **The pager** of the recipe list.
- **The recipe edit form.** The class covers its validation reducer, the changed-fields payload and the submit outcomes.
- **Generation recording.** This covers the diet-preferences lookup that comes first, trimmed lengths, the lower-case hex rendering of digests, the insert-failure log, and the mapping of database error codes to domain errors.
- **The mock AI adapter.**
- **The API error-to-response table.**
- **The request schemas.** These are the recipe and generation drafts, diet preferences, and the e-mail/password commands.

Strings are `seq<char>`, one element per UTF-16 code unit. So `|s|` is a JavaScript `length`, and `Text.Trim` is `String.prototype.trim`. Foreign results are parameters of the model:
- database answers;
- the SHA-256 digest;
- the e-mail format verdict;
- JSON parsing;
- the draft validator imported by the edit form.

The recipe schema and the generation schema are the same declaration, so one module (`DraftSchema`) models both.

## Model

| member | source | states |
|---|---|---|
| Text.TrimIsCore | src/lib/services/generation.service.ts:17-18 | `trim()` returns the slice of the string left between its leading and trailing whitespace, and the result neither starts nor ends with whitespace |
| Text.TrimIdempotent | src/lib/services/generation.service.ts:17-18 | trimming a trimmed string changes nothing |
| Text.TrimEmptyIffAllSpace | src/lib/services/generation.service.ts:17-18 | a string trims to the empty string iff it is all whitespace |
| OpenRouterRequest.MessageError | src/lib/services/openrouter.service.ts:413-425 | a message is accepted iff its role and content are non-empty, its role is system, user or assistant, and its raw content has at most 50 000 code units |
| OpenRouterRequest.NormalizeNewlines | src/lib/services/openrouter.service.ts:428 | the single-pass CRLF-to-LF replacement never lengthens the text |
| OpenRouterRequest.NormalizeWithoutCR | src/lib/services/openrouter.service.ts:428 | text without a carriage return is left as it is |
| OpenRouterRequest.SanitizeMessages | src/lib/services/openrouter.service.ts:408-438 | an empty list fails with "Messages must be a non-empty array"; the result is a success iff every message passes the checks; on success the list has the same length and order, the roles are unchanged and each content is redact(trim(content) with CRLF replaced by LF) |
| OpenRouterRequest.WhitespaceContentBecomesEmpty | src/lib/services/openrouter.service.ts:413-431 | whitespace-only content passes the emptiness check and is sent as the empty string |
| OpenRouterRequest.SanitizeLetterFree | src/lib/services/openrouter.service.ts:428-431 | for trimmed content without ASCII letters, sanitising is just newline normalisation |
| OpenRouterRequest.NormalizeCrCrLf | src/lib/services/openrouter.service.ts:428 | "1\r\r\n2" normalises to "1\r\n2", so one pass leaves a CRLF behind |
| OpenRouterRequest.NormalizeCrLf | src/lib/services/openrouter.service.ts:428 | "1\r\n2" normalises to "1\n2" |
| OpenRouterRequest.SanitizingTwiceDiffers | src/lib/services/openrouter.service.ts:428 | sanitising is not idempotent: a second pass turns "1\r\n2" into "1\n2" |
| OpenRouterRequest.MergeDefaults | src/lib/services/openrouter.service.ts:198-200 | `updateDefaults` overrides exactly the supplied sampling fields and leaves the others unchanged |
| OpenRouterRequest.MergeIdempotent | src/lib/services/openrouter.service.ts:198-200 | applying the same update twice is the same as applying it once |
| OpenRouterRequest.ModelFor | src/lib/services/openrouter.service.ts:259 | the payload model is the per-call model when it is non-empty, else the instance default |
| OpenRouterRequest.ParamsFor | src/lib/services/openrouter.service.ts:244-256 | without per-call options the sampling parameters are the defaults; with an options object each of the five is the option's own value, so an option left out is absent even where a default exists |
| OpenRouterRequest.BuildPayload | src/lib/services/openrouter.service.ts:236-277 | the result fails iff sanitisation fails, with its message; on success it carries the sanitised messages, the chosen model and parameters, and a `response_format` iff a schema was given, which is then the strict "schema" JSON-schema directive |
| OpenRouterRequest.PayloadParamsSource | src/lib/services/openrouter.service.ts:245-256 | with no per-call options the sampling parameters are the defaults; with any options object the defaults have no influence on the payload |
| OpenRouterRequest.PayloadModelSource | src/lib/services/openrouter.service.ts:259 | a non-empty per-call model makes the instance model irrelevant |
| OpenRouterResponse.Classify | src/lib/services/openrouter.service.ts:341-376 | a fetch rejection is a network error; a non-2xx is an http error with the status and the body's `error.message` or else `HTTP <status>: <statusText>`; an unparsable 2xx body is a parse error; otherwise the parsed body is returned |
| OpenRouterResponse.EmptyErrorMessageFallsBack | src/lib/services/openrouter.service.ts:354-360 | an empty `error.message` in the body gives the status-line message |
| OpenRouterResponse.Backoff | src/lib/services/openrouter.service.ts:316 | the wait after a failed attempt is at least the initial delay of 1000 ms |
| OpenRouterResponse.BackoffDoubles | src/lib/services/openrouter.service.ts:315-317 | the wait after the first failed attempt is 1000 ms, and each later wait is double the one before |
| OpenRouterResponse.Exhausted | src/lib/services/openrouter.service.ts:307-313 | when retries run out, a 429 becomes a rate-limit error whose cause is the http error, and any other error is rethrown unchanged |
| OpenRouterResponse.Throttled | src/lib/services/openrouter.service.ts:389-399 | the send time is never before now and at least 1000 ms after the previous send, and it is now itself when 1000 ms have already passed |
| OpenRouterResponse.SentOfIsSingleSend | src/lib/services/openrouter.service.ts:329-346 | one send either succeeds or fails with a network, http or parse error |
| OpenRouterResponse.Attempts | src/lib/services/openrouter.service.ts:298-324 | the retry loop sends at least once and at most 3 times from attempt 1, the first send is at the throttled time, and the clock ends after the last send |
| OpenRouterResponse.AttemptsDecided | src/lib/services/openrouter.service.ts:298-324 | a send that succeeds or fails without being retryable ends the loop with its own result after one send |
| OpenRouterResponse.AttemptsExhausted | src/lib/services/openrouter.service.ts:307-313 | a retryable failure on the last attempt ends the loop with the exhausted error |
| OpenRouterResponse.AttemptsContinue | src/lib/services/openrouter.service.ts:314-318 | a retryable failure before the last attempt waits the backoff and continues with the next attempt |
| OpenRouterResponse.EarlierSendsFailedRetryably | src/lib/services/openrouter.service.ts:303-318 | every send but the last failed retryably: only network errors, 429 and 5xx are retried |
| OpenRouterResponse.LastSend | src/lib/services/openrouter.service.ts:298-324 | the index of the send that ended the loop lies within the scripted sends |
| OpenRouterResponse.StopsAtFirstDecisiveSend | src/lib/services/openrouter.service.ts:298-324 | when the last send was decisive, the loop's result is that send's result |
| OpenRouterResponse.ExhaustedAfterLastAttempt | src/lib/services/openrouter.service.ts:305-313 | a loop ending on a retryable failure made all 3 sends and returns the exhausted form of the last error |
| OpenRouterResponse.RetryTimes | src/lib/services/openrouter.service.ts:314-318 | each send after the first is exactly one fetch latency plus a backoff of 1000·2^(attempt−1) ms after the previous one |
| OpenRouterResponse.RateLimitIffThird429 | src/lib/services/openrouter.service.ts:305-313 | the call ends in a rate-limit error iff the first two sends failed retryably and the third got a 429 |
| OpenRouterResponse.Three429sAreRateLimited | src/lib/services/openrouter.service.ts:305-313 | three 429s in a row give the rate-limit error "Rate limit exceeded after 3 attempts" after 3 sends |
| OpenRouterResponse.ServerErrorsThenSuccess | src/lib/services/openrouter.service.ts:298-324 | a 500, a 503 and then a success, starting at 5000 ms, are sent at 5000, 6010 and 8030 ms and return the success |
| OpenRouterResponse.NonRetryableSendsOnce | src/lib/services/openrouter.service.ts:320-323 | a non-retryable failure propagates after exactly one send |
| OpenRouterResponse.ContentOf | src/lib/services/openrouter.service.ts:112-119 | no choices is the parse error "No choices returned in response"; a first choice without string content is "Invalid content in response"; otherwise the first choice's content |
| OpenRouterResponse.ValidateAgainstSchema | src/lib/services/openrouter.service.ts:208-214 | the value passes iff the schema accepts it, returning the schema's output; a mismatch is a validation error prefixed "Schema validation failed: " |
| OpenRouterResponse.StructuredOf | src/lib/services/openrouter.service.ts:156-165 | content that is not JSON is the parse error "Failed to parse JSON response from LLM"; JSON content goes to schema validation |
| OpenRouterService.Upcoming | src/lib/services/openrouter.service.ts:329-346 | the next n sends are the network's answers to the next n request indices |
| OpenRouterService.Records | src/lib/services/openrouter.service.ts:329-340 | each send at time t is logged with the same authorization and payload |
| OpenRouterService.RetryRecords | src/lib/services/openrouter.service.ts:298-318 | logging one send and then the remaining sends equals logging all of them |
| OpenRouterService.ChatResult | src/lib/services/openrouter.service.ts:110-124 | a gateway failure propagates; otherwise the first choice's content or its parse error |
| OpenRouterService.StructuredResult | src/lib/services/openrouter.service.ts:145-171 | a gateway failure propagates; otherwise the content is parsed as JSON and validated, each failure propagating |
| OpenRouterService.OpenRouterClient.constructor | src/lib/services/openrouter.service.ts:80-92 | a client with a usable key starts with the given model and defaults, `lastRequestTime` 0 and no sends, and satisfies the client invariant |
| OpenRouterService.OpenRouterClient.Create | src/lib/services/openrouter.service.ts:80-89 | construction fails with the missing-key message iff the key is absent or whitespace; an omitted model or defaults takes the built-in one |
| OpenRouterService.OpenRouterClient.GetModel | src/lib/services/openrouter.service.ts:182-184 | returns the current default model |
| OpenRouterService.OpenRouterClient.SetModel | src/lib/services/openrouter.service.ts:190-192 | the default model becomes the given name and nothing else changes |
| OpenRouterService.OpenRouterClient.UpdateDefaults | src/lib/services/openrouter.service.ts:198-200 | the defaults become the merge of the old defaults with the update; nothing else changes |
| OpenRouterService.OpenRouterClient.Sleep | src/lib/services/openrouter.service.ts:382-384 | the clock advances by exactly the requested time |
| OpenRouterService.OpenRouterClient.Throttle | src/lib/services/openrouter.service.ts:389-399 | waits exactly the remainder of the 1000 ms gap when needed, then sets `lastRequestTime` to the current time |
| OpenRouterService.OpenRouterClient.SendRequest | src/lib/services/openrouter.service.ts:329-346 | one throttled send with the bearer key: it is logged at the throttled time, and its result is the classification of the network's answer; sends stay at least 1000 ms apart |
| OpenRouterService.OpenRouterClient.SendRequestWithRetry | src/lib/services/openrouter.service.ts:298-324 | the result, final clock and logged sends are those of the retry specification `Attempts`, so every property proved about `Attempts` holds for the client |
| OpenRouterService.OpenRouterClient.RetryAfterFailure | src/lib/services/openrouter.service.ts:314-318 | after a retryable failure, sleeping the backoff and retrying continues the same `Attempts` run |
| OpenRouterService.OpenRouterClient.GenerateChatCompletion | src/lib/services/openrouter.service.ts:104-130 | invalid messages fail before any send with the clock unchanged; otherwise the retry run's outcome, mapped to the first choice's content |
| OpenRouterService.OpenRouterClient.GenerateStructured | src/lib/services/openrouter.service.ts:139-176 | as the chat completion with the structured-output directive, with the content parsed and schema-validated |
| Redaction.LongTokenAt | src/lib/services/openrouter.service.ts:448 | a long-token match is a run of at least 20 word or hyphen characters between word boundaries, replaced by "[REDACTED_KEY]" |
| Redaction.BearerAt | src/lib/services/openrouter.service.ts:450 | a Bearer match exists iff "bearer", in any case, is followed by whitespace and a token character; it covers the token run and is replaced by "Bearer [REDACTED_TOKEN]" |
| Redaction.JwtAt | src/lib/services/openrouter.service.ts:452 | a JWT match is `eyJ…` `.eyJ…` `.…` over token characters, replaced by "[REDACTED_JWT]" |
| Redaction.KeyValueAt | src/lib/services/openrouter.service.ts:454-467 | a key-value match starts with the keyword in any case; the replacement keeps the key, quote and separator prefix and appends the placeholder |
| Redaction.MatchAt | src/lib/services/openrouter.service.ts:446-468 | every match of a pass is non-empty and its replacement ends with that pass's placeholder |
| Redaction.FilterSensitiveData | src/lib/services/openrouter.service.ts:444-485 | the loop over the passes computes the redaction specification: the long-token pass only in key context, then Bearer, JWT, password, token and secret in that order |
| Redaction.KeyContextIffKey | src/lib/services/openrouter.service.ts:472-475 | the API-key context test holds iff "key" occurs in the content, in any case |
| Redaction.ReplaceLeavesPlaceholder | src/lib/services/openrouter.service.ts:470-482 | a pass that matches somewhere leaves its placeholder in the output |
| Redaction.EveryMatchStartIsReplaced | src/lib/services/openrouter.service.ts:470-482 | every position where a pass matches lies inside a stretch that the pass's left-to-right scan replaces; the stretches are stated by a description that follows the scanner's own match positions, not read back from its output |
| Redaction.BearerAfterBearerSurvives | src/lib/services/openrouter.service.ts:450 | "Bearer Bearer secret" becomes "Bearer [REDACTED_TOKEN] secret": the credential stays visible |
| Redaction.RedactWithoutSecrets | src/lib/services/openrouter.service.ts:444-485 | content that no pass matches is returned unchanged |
| Redaction.LetterFreeUnredacted | src/lib/services/openrouter.service.ts:444-485 | content without ASCII letters is never redacted |
| Issues.AtPath | src/lib/validation/recipe.schema.ts:8-11 | each message of a field becomes one issue at that field's path, in order |
| DraftSchema.LengthIssues | src/lib/validation/recipe.schema.ts:9-10 | a trimmed field has no issue iff its length is 1..max; empty gives the "required" message and too long the "≤" message |
| DraftSchema.ParseDraft | src/lib/validation/recipe.schema.ts:8-11 | a draft is accepted iff both fields are present with trimmed lengths 1..50 and 1..10 000; the parsed fields are the trimmed strings; a blank title reports "Title is required" first |
| DraftSchema.ParseDraftIdempotent | src/lib/validation/generation.schema.ts:8-11 | a parsed draft parses again to itself |
| DraftSchema.BlankTitleRequired | src/lib/validation/recipe.schema.ts:9 | a whitespace-only title fails with "Title is required", whatever surrounds it |
| PreferencesSchema.EnumIssues | src/lib/validation/user.schema.ts:7-19 | there are no enum issues iff every element is one of the six diet preferences |
| PreferencesSchema.PreferencesIssues | src/lib/validation/user.schema.ts:17-24 | there are no issues iff the list has at most 6 known, distinct values; "Maximum 6 dietary preferences allowed" appears iff the list is longer than 6; "Duplicate preferences are not allowed" appears iff every value is known and one repeats |
| PreferencesSchema.ParsePreferences | src/lib/validation/user.schema.ts:17-24 | a list is accepted iff it has at most 6 elements, no duplicates and only known preferences, and it is returned unchanged |
| PreferencesSchema.DistinctIffSetSizeMatches | src/lib/validation/user.schema.ts:21 | the `new Set(prefs).size === prefs.length` refinement holds exactly when no element repeats |
| PreferencesSchema.KnownDistinctAtMostSix | src/lib/validation/user.schema.ts:7-23 | a list of known, distinct preferences never exceeds 6 |
| PreferencesSchema.TooManyNeverAlone | src/lib/validation/user.schema.ts:19-23 | a list longer than 6 always draws at least two issues |
| PreferencesSchema.EmptyAccepted | src/lib/validation/user.schema.ts:17-24 | the empty list is accepted |
| AuthSchema.Test | src/lib/validation/auth.schema.ts:11-12 | the regular-expression test holds iff some character is in the class |
| AuthSchema.EmailIssues | src/lib/validation/auth.schema.ts:4 | an e-mail passes iff it is well formed and at most 254 code units; each failing rule gives its own message |
| AuthSchema.PasswordIssues | src/lib/validation/auth.schema.ts:7-12 | a password passes iff it has 8..72 code units, an ASCII letter and an ASCII digit; the too-short, too-long, no-letter and no-digit messages each appear exactly when their rule fails |
| AuthSchema.ParseCredentials | src/lib/validation/auth.schema.ts:15-24 | login and register accept iff both the e-mail and the password pass, returning them unchanged; failures list e-mail issues before password issues |
| AuthSchema.ParseResetRequest | src/lib/validation/auth.schema.ts:27-29 | the reset request checks only the e-mail |
| AuthSchema.ParsePasswordUpdate | src/lib/validation/auth.schema.ts:32-34 | the password update checks only the password |
| AuthSchema.CredentialsAreBothParts | src/lib/validation/auth.schema.ts:15-34 | a credential pair is accepted iff the reset-request schema accepts its e-mail and the update schema accepts its password |
| AuthSchema.LettersOnlyNeedDigit | src/lib/validation/auth.schema.ts:12 | "abcdefgh" fails only with "Password must contain at least one digit." |
| AuthSchema.EmptyPasswordIssues | src/lib/validation/auth.schema.ts:9-12 | the empty password fails the length, letter and digit rules, in that order |
| PasswordReset.FirstField | src/pages/api/auth/password/request.ts:18 | the first comma-separated field is the prefix up to the first comma, or the whole string |
| PasswordReset.ClientIP | src/pages/api/auth/password/request.ts:12-27 | the trimmed first field of a non-empty `x-forwarded-for`, else a non-empty `x-real-ip`, else "unknown" |
| PasswordReset.ForwardedKeyIsClean | src/pages/api/auth/password/request.ts:17-18 | a key taken from `x-forwarded-for` has no comma and no surrounding whitespace |
| PasswordReset.ProxyChainKey | src/pages/api/auth/password/request.ts:17-18 | for a proxy chain "a, b, …" the key is the client address a |
| PasswordReset.LeadingCommaSharesEmptyKey | src/pages/api/auth/password/request.ts:17-18 | a header starting with a comma gives the empty key, shared by every such client |
| PasswordReset.Updated | src/pages/api/auth/password/request.ts:29-49 | only the caller's entry changes; a missing or expired one restarts at count 1 with a window of 900 000 ms; otherwise its reset time is kept |
| PasswordReset.UpdatedKeepsCounts | src/pages/api/auth/password/request.ts:33-48 | counts stay within 1..5; an allowed call in a live window adds one, and a limited call leaves the table unchanged |
| PasswordReset.AllowedWithinWindow | src/pages/api/auth/password/request.ts:42-48 | calls before an entry's reset time are allowed at most 5 minus its count times |
| PasswordReset.AtMostFivePerWindow | src/pages/api/auth/password/request.ts:33-48 | at most 5 calls per client are allowed in one window |
| PasswordReset.SixthCallLimited | src/pages/api/auth/password/request.ts:42-44 | of six calls at the same instant from a new client, exactly five are allowed |
| PasswordReset.Unexpired | src/pages/api/auth/password/request.ts:53-58 | the sweep keeps exactly the entries whose reset time has not passed, unchanged |
| PasswordReset.SweepUnobservable | src/pages/api/auth/password/request.ts:29-58 | a sweep at an earlier time changes neither the limiter's verdict nor the caller's new entry |
| PasswordReset.RateLimiter.IsRateLimited | src/pages/api/auth/password/request.ts:29-49 | the verdict is "limited" iff a live entry already has count 5, and the table becomes its update |
| PasswordReset.RateLimiter.Sweep | src/pages/api/auth/password/request.ts:52-59 | the loop deletes exactly the expired entries |
| PasswordReset.Respond | src/pages/api/auth/password/request.ts:65-147 | 429 with `Retry-After: 900` iff limited; 400 iff the JSON body fails the schema; every other path 200 `{status: "ok"}` |
| PasswordReset.ResetTarget | src/pages/api/auth/password/request.ts:65-106 | a reset is requested iff the client is not limited and the body parses, and it is for the given e-mail |
| PasswordReset.ResetRequestedAnswersOk | src/pages/api/auth/password/request.ts:104-147 | a requested reset answers exactly as an unparsable body does, so the answer does not reveal whether the address exists |
| PasswordReset.Post | src/pages/api/auth/password/request.ts:61-148 | the handler consults the limiter with the client's key and answers with the response and reset target |
| RouteGuard.EncodeURIComponent | src/middleware/index.ts:41 | the encoded path contains no `?`, `&`, `+` or `#`, so it stays one query value |
| RouteGuard.DecodeEncode | src/middleware/index.ts:41 | decoding the query value gives back the original path |
| RouteGuard.Route | src/middleware/index.ts:20-45 | `/api/` paths pass; a signed-in user on a public auth path goes to the `redirect` value or "/"; an anonymous user on another path goes to the login page with the encoded path; all other requests pass |
| RouteGuard.LoginPathNotApi | src/middleware/index.ts:23-28 | the login page is not an API path |
| RouteGuard.ReturnsToRequestedPage | src/middleware/index.ts:31-43 | an anonymous visitor to a protected page is sent to login, and after signing in returns to that page |
| RouteGuard.NoRedirectLoop | src/middleware/index.ts:31-36 | an anonymous visitor to the login page is let through |
| RouteGuard.RedirectParamUnchecked | src/middleware/index.ts:33-34 | a signed-in user is redirected to any `redirect` value, an off-site URL included |
| RouteGuard.OnRequest | src/middleware/index.ts:5-46 | the session's user is stored in `locals` before the routing decision, for every path |
| ErrorResponse.ErrorToApiResponse | src/lib/utils/error-response.ts:14-75 | 404 iff `NotFoundError`, 403 iff `ForbiddenError`; 401 for `UnauthorizedError` or an auth message; 400 for validation or bad-request errors or a constraint message; otherwise 500; a `requestId` iff a non-empty one is set; details only in development for the fallback; a plain error answered with 401 says "Unauthorized", with 400 "Invalid request data", and every 500 except an `InternalServerError` says "Internal server error" |
| ErrorResponse.Fallback | src/lib/utils/error-response.ts:63-74 | the fallback is a 500 "Internal server error" without request id |
| ErrorResponse.PlainMessageHiddenInProduction | src/lib/utils/error-response.ts:50-74 | in production a plain error's message is never echoed |
| ErrorResponse.UnauthenticatedBeforeConstraint | src/lib/utils/error-response.ts:53-60 | a message that mentions both a constraint and "not authenticated" gives 401 |
| ErrorResponse.ClassDecidesNotFound | src/lib/utils/error-response.ts:18-74 | "Recipe not found" gives 404 only as a `NotFoundError`; as a plain error it gives 500 |
| ErrorResponse.EmptyRequestIdOmitted | src/lib/utils/error-response.ts:43-45 | an empty request id is left out of the response |
| ErrorResponse.ErrorToApiResponseAsWritten | src/lib/utils/error-response.ts:1-26 | with only `NotFoundError` and `ValidationError` defined, a response comes back iff the value is one of those two, and then it is the table's; every other value makes the call throw |
| ErrorResponse.AsWrittenThrowsOnPlainErrors | src/lib/utils/error-response.ts:18-54 | a plain "Unauthorized" error, a 401 in the table, and a thrown non-`Error` get no response as written |
| RecipesService.StringLeTotal | src/lib/services/recipes.service.ts:48 | code-unit order of titles is total |
| RecipesService.InOrderTotal | src/lib/services/recipes.service.ts:48 | any two rows are ordered one way or the other under each sort key and direction |
| RecipesService.Insert | src/lib/services/recipes.service.ts:48 | inserting into a sorted list keeps it sorted and adds exactly that row |
| RecipesService.Sort | src/lib/services/recipes.service.ts:48 | the sort returns a sorted permutation of the rows |
| RecipesService.Owned | src/lib/services/recipes.service.ts:44-52 | the query sees exactly the caller's rows |
| RecipesService.Range | src/lib/services/recipes.service.ts:49 | `range(from, to)` returns the rows from..to inclusive that exist, in order |
| RecipesService.ProjectAll | src/lib/services/recipes.service.ts:63-69 | every row is projected to id, title, source and timestamps, in order |
| RecipesService.OffsetNonNegative | src/lib/services/recipes.service.ts:39 | for page and size at least 1 the offset is non-negative |
| RecipesService.ListRecipes | src/lib/services/recipes.service.ts:32-74 | a data error gives "Failed to fetch recipes: …", a count error "Failed to fetch recipe count: …"; success iff neither, with total the count or 0 |
| RecipesService.ListedItemsOwned | src/lib/services/recipes.service.ts:44-69 | every listed item is the projection of one of the caller's rows |
| RecipesService.PageSizes | src/lib/services/recipes.service.ts:33-49 | a page holds min(pageSize, rows after the offset) items, with defaults page 1 and size 20 |
| RecipesService.PagesAdjoin | src/lib/services/recipes.service.ts:39-49 | consecutive pages are adjacent windows: nothing is skipped or repeated |
| RecipesService.PageSorted | src/lib/services/recipes.service.ts:48-49 | the rows of every page (`PageRows`, before the projection to list items) are in the requested order |
| RecipesService.Find | src/lib/services/recipes.service.ts:84-89 | the lookup returns a row with that id owned by the caller, and none only when no such row exists |
| RecipesService.GetRecipe | src/lib/services/recipes.service.ts:83-107 | a database error gives "Failed to fetch recipe: …"; "Recipe not found" iff the caller owns no such row; otherwise the row without its owner |
| RecipesService.OthersRecipesInvisible | src/lib/services/recipes.service.ts:84-97 | another user's recipe reads as not found |
| RecipesService.Without | src/lib/services/recipes.service.ts:114-117 | deleting removes exactly the matching rows, and the count is zero iff none matched |
| RecipesService.DeleteRecipe | src/lib/services/recipes.service.ts:113-122 | a database error is rethrown; `NotFoundError("Recipe not found")` iff nothing matched; otherwise the matching rows are gone |
| RecipesService.DeleteTwiceNotFound | src/lib/services/recipes.service.ts:119-120 | deleting the same recipe again gives not found, and other users' rows survive |
| Pagination.MaxPage | src/components/recipes/PaginationControls.tsx:11 | the last page is at least 1 and the fewest pages that hold all rows |
| Pagination.Render | src/components/recipes/PaginationControls.tsx:9-40 | hidden iff all rows fit on one page; "Previous" disabled iff page is 1 and asks for page − 1; "Next" disabled iff page ≥ maxPage and asks for page + 1; label "Page p of maxPage" |
| Pagination.NextEnabledIffRowsRemain | src/components/recipes/PaginationControls.tsx:11-32 | "Next" is enabled exactly when rows remain after the current page |
| Pagination.SinglePageIff | src/components/recipes/PaginationControls.tsx:11-13 | the pager is hidden exactly when total ≤ page size |
| Pagination.PagerThresholds | src/components/recipes/PaginationControls.tsx:11-32 | 20 rows in pages of 20 show no pager; 21 rows show "Page 1 of 2" |
| EditForm.MessagesOf | src/components/recipes/edit/RecipeEditForm.tsx:61-70 | a field's messages are empty iff no issue concerns it |
| EditForm.ErrorsFor | src/components/recipes/edit/RecipeEditForm.tsx:60-70 | a field has errors iff it is touched and has issues, and then they are its issue messages in order |
| EditForm.UpdateFormState | src/components/recipes/edit/RecipeEditForm.tsx:42-78 | the update is merged; the state is valid iff the draft validates, with no errors then, and otherwise errors only for touched fields |
| EditForm.UntouchedFieldsQuiet | src/components/recipes/edit/RecipeEditForm.tsx:63-66 | an untouched field never shows an error |
| EditForm.ReducerDropsRequestedErrors | src/components/recipes/edit/RecipeEditForm.tsx:44-76 | errors passed in an update have no effect: the reducer always recomputes them |
| EditForm.CanSubmitIffTrimmedNonEmpty | src/components/recipes/edit/RecipeEditForm.tsx:103-105 | submission proceeds iff the form is valid and both trimmed fields are non-empty |
| EditForm.ChangedFields | src/components/recipes/edit/RecipeEditForm.tsx:111-123 | the payload has the trimmed title iff it differs from the loaded title, and likewise the content |
| EditForm.ChangesReachDraft | src/components/recipes/edit/RecipeEditForm.tsx:111-130 | applying the payload to the loaded recipe gives the trimmed draft; the payload is empty iff nothing changed after trimming |
| EditForm.PaddedTitleAlwaysSent | src/components/recipes/edit/RecipeEditForm.tsx:113-119 | a loaded title with leading whitespace is sent on every save even when untouched |
| EditForm.FailedSaveAsWritten | src/components/recipes/edit/RecipeEditForm.tsx:140-146 | the save error can reach the title only if the validator itself reports exactly that message for the title; a draft the validator accepts ends with no errors at all; the submitting flag is cleared and the values and touched flags are kept |
| EditForm.SaveFailureNotShownAsWritten | src/components/recipes/edit/RecipeEditForm.tsx:42-58 | for a valid draft the reducer wipes the save error, so it is never shown |
| EditForm.FailedSave | src/components/recipes/edit/RecipeEditForm.tsx:140-146 | a failed save shows "Failed to update recipe. Please try again." on the title, clears the submitting flag, and keeps the values |
| EditForm.SubmitEffects | src/components/recipes/edit/RecipeEditForm.tsx:100-149 | a save the guard stops changes nothing; an update is sent only with the changed trimmed fields; with nothing changed the "No changes to save" toast is shown and the form is re-enabled; it navigates to the recipe iff an update was sent and succeeded, with the success toast; a failed update shows the error toast and the save error on the title and re-enables the form; the field values are kept |
| EditForm.SubmitSendsOnlyChanges | src/components/recipes/edit/RecipeEditForm.tsx:100-130 | nothing happens unless submission is allowed; an update is sent iff a trimmed field changed, and it carries exactly the changes |
| EditForm.SubmitOutcomes | src/components/recipes/edit/RecipeEditForm.tsx:132-148 | after a sent update, success navigates to the recipe with a success toast; failure stays, clears the submitting flag and shows the save error |
| EditForm.RecipeEditForm.constructor | src/components/recipes/edit/RecipeEditForm.tsx:29-39 | the form starts with the loaded values, no errors, nothing touched, valid and not submitting |
| EditForm.RecipeEditForm.ChangeTitle | src/components/recipes/edit/RecipeEditForm.tsx:80-88 | typing a title marks it touched and runs the reducer; nothing is sent |
| EditForm.RecipeEditForm.ChangeContent | src/components/recipes/edit/RecipeEditForm.tsx:90-98 | typing content marks it touched and runs the reducer; nothing is sent |
| EditForm.RecipeEditForm.HandleSubmit | src/components/recipes/edit/RecipeEditForm.tsx:100-149 | the new state, the updates sent, the toasts and the navigation are those of one submission, with a failed update handled by the intended `FailedSave` rather than the code as written (see Findings) |
| EditForm.RecipeEditForm.Cancel | src/components/recipes/edit/RecipeEditForm.tsx:151-153 | cancelling navigates to the recipe and changes nothing else |
| AiAdapter.Preview | src/lib/services/ai.adapter.ts:13 | the preview is the first min(30, length) code units of the content |
| AiAdapter.GenerateRecipeProposal | src/lib/services/ai.adapter.ts:7-16 | the model is always "mock-model", and the content is bounded whatever the input length |
| AiAdapter.ProposalKeepsInput | src/lib/services/ai.adapter.ts:12-13 | the title is recoverable by stripping " (Healthier Version)"; the content carries the 30-unit preview between the intro and "..."; the whole input survives iff it has at most 30 code units |
| GenerationService.ByteToString16 | src/lib/services/generation.service.ts:163 | `b.toString(16)` has one digit below 16 and two otherwise |
| GenerationService.PadStart2 | src/lib/services/generation.service.ts:163 | padding makes one- and two-digit strings exactly two long |
| GenerationService.HexEncode | src/lib/services/generation.service.ts:161-163 | the rendering is two characters per byte |
| GenerationService.ByteDigits | src/lib/services/generation.service.ts:163 | each byte becomes its high and low lower-case hex digit, zero-padded |
| GenerationService.HexRoundTrip | src/lib/services/generation.service.ts:157-164 | decoding the hex rendering gives back the bytes, so the rendering is lossless and in order |
| GenerationService.HashShape | src/lib/services/generation.service.ts:157-164 | a 32-byte digest renders as 64 characters, and equal renderings mean equal digests |
| GenerationService.GetDietPreferences | src/lib/services/user.service.ts:10-16 | the lookup succeeds iff the query does, with its values; a query error is thrown as "Could not fetch user diet preferences: " followed by the database message |
| GenerationService.CallUserService | src/lib/services/user.service.ts:3-17 | calling a method the user service defines is that method; calling any other name fails with a plain `Error` (a TypeError) |
| GenerationService.GenerateWith | src/lib/services/generation.service.ts:14-62 | the request throws before anything is written iff the preferences lookup fails, with the lookup's error; otherwise it is the insert step on the trimmed title and content |
| GenerationService.GenerateRecipeAsWritten | src/lib/services/generation.service.ts:14-21 | as written, the request always throws before the insert and writes neither a row nor an error log |
| GenerationService.GenerateRecipe | src/lib/services/generation.service.ts:14-62 | with the service's `getDietPreferences`, the request throws "Could not fetch user diet preferences: …" iff the preferences query fails, and otherwise records the trimmed title and content |
| GenerationService.GenerationsStatus | src/pages/api/generations.ts:23-30 | the generations endpoint answers 202 iff the request reached the insert and it succeeded, and 500 otherwise |
| GenerationService.AsWrittenAlwaysFails | src/lib/services/generation.service.ts:20 | as written, every request throws "this.userService.getUserDietPreferences is not a function", and the endpoint answers 500 whatever the database says |
| GenerationService.IntendedCanSucceed | src/lib/services/generation.service.ts:20-62 | as intended, a request whose lookup and insert succeed is answered with 202 |
| GenerationService.GenerateTrimmed | src/lib/services/generation.service.ts:17-62 | the recorded lengths and hashes are those of the trimmed title and content, model "mock-model", status null; success iff the insert returned an id without error, answering with the id and proposal; otherwise the error is logged with its code or "insert_error" and its message or the default, and "Database insert failed" is thrown |
| GenerationService.OnlyTrimmedInputMatters | src/lib/services/generation.service.ts:17-21 | surrounding whitespace of the title and content never changes the outcome |
| GenerationService.ErrorForCode | src/lib/services/generation.service.ts:85-98 | "02000" iff GENERATION_NOT_FOUND, "23505" iff GENERATION_ALREADY_PROCESSED, anything else DATABASE_ERROR |
| GenerationService.Rethrow | src/lib/services/generation.service.ts:105-115 | the three domain errors pass unchanged; any other thrown value becomes DATABASE_ERROR |
| GenerationService.AcceptGeneration | src/lib/services/generation.service.ts:72-116 | every failure is one of the three domain errors; success iff the call returned no error and non-empty data; a returned error code fails with ErrorForCode of it, missing or empty data with DATABASE_ERROR, and a thrown value with its Rethrow |
| GenerationService.RejectGeneration | src/lib/services/generation.service.ts:123-155 | every failure is one of the three domain errors; success iff the call returned no error; a returned error code fails with ErrorForCode of it, and a thrown value with its Rethrow |
| GenerationService.AcceptRejectAgree | src/lib/services/generation.service.ts:85-154 | accept and reject map a database error or a thrown value to the same domain error |
| GenerationService.UnknownFailuresBecomeDatabaseError | src/lib/services/generation.service.ts:105-115 | an unknown thrown error or a non-Error value becomes DATABASE_ERROR |

## Left out

- Network, clocks and timers are not real. `fetch` is the client's `network` function from send index to outcome, and `Date.now`/`setTimeout` are the client's clock. In the limiter, `Date.now()` is the `now` parameter, and the `setInterval` schedule is left out: only the sweep body is modelled (`RateLimiter.Sweep(now)`). The generation duration is a parameter.
- Concurrency is not modelled. That covers races on `lastRequestTime` between concurrent calls and parallel queries.
- The gateway's `logRequest`/`logError` console output and `console.error` calls are left out. They do not affect results.
- `JSON.stringify`, `JSON.parse` and `Response.json` are left out: response bodies are already parsed (`Json`/`NotJson`), and structured content is parsed by a `parse` parameter. `zodToJsonSchema` is the constant permissive schema.
- The sampling parameters are opaque values, with no floating-point semantics.
- The long-token, JWT and key-value regular expressions are modelled as concrete left-to-right scanners. Regex semantics in general, and Unicode word boundaries, are not modelled.
- Zod is not modelled as a library. The schemas are predicates with their issue lists. Zod's own type and enum messages are the `WrongType` and `NotAnOption` issues without text. The `.email()` format check is a `wellFormed` parameter; only the 254-unit cap is modelled.
- `zRecipeDraft` is not part of this model. The edit form takes it as a `validate` parameter. `recipe.schema.ts` exports only `zCreateRecipeSchema`, so as written the form's import of `zRecipeDraft` is undefined; the model assumes a draft validator exists and does not tie `validate` to `DraftSchema.ParseDraft`.
- Supabase calls are not modelled: queries, RPCs, auth and `.single()` library errors. Their answers are inputs, such as rows, an optional database error and a count. The user service's preferences query is modelled only by its answer (`PreferencesAnswer`). `generateRecipeProposal` ignores the third argument it is passed, so the values of the preferences do not affect the proposal.
- `crypto.subtle.digest` (SHA-256, FIPS 180-4) and `TextEncoder` are not modelled. The digest is the `digest` parameter from string to bytes.
- The outcome of `logError`'s own insert is not modelled. It does not affect the thrown error.
- `createManualRecipe` is not modelled: it is a single insert. `updateRecipe` is not in `recipes.service.ts` and is not modelled.
- `errors.ts` defines only `NotFoundError` and `ValidationError`. `ErrorResponse.ErrorToApiResponse` models the table with the four other classes it imports (`BadRequestError`, `UnauthorizedError`, `ForbiddenError`, `InternalServerError`) assumed to exist as `Error` subclasses carrying a message, and a request id for the last; the code as written is `ErrorToApiResponseAsWritten` (see Findings). Other `Error` instances and thrown non-`Error` values are `PlainError` and `NotAnError`.
- OpenRouterResponse.Classify and OpenRouterResponse.ContentOf: a `Body` is either unparsable or an object whose `error.message` is a string or absent. Two bodies are not expressible: a 2xx body that is JSON `null`, on which reading `choices` throws a TypeError rather than a parse error (openrouter.service.ts lines 112 and 147), and a non-2xx body whose `error.message` is a truthy non-string such as 42, which becomes the error's message instead of the status line.
- RecipesService.Sort: ties between equal keys may come back in any order the database picks. Sorting is by code unit, not database collation.
- RecipesService.ListRecipes: requires page ≥ 1 and page size ≥ 1. The service itself does not check them, and the window it would ask the database for with page 0 or a size below 1 (a negative offset or an empty range) is not modelled.
- Pagination.Render: requires a page size ≥ 1. `Math.ceil(total / 0)` is `Infinity` in JavaScript, and that case is not modelled.
- RouteGuard.Route: requires an ASCII pathname. The URL parser percent-encodes every other character, and UTF-8 percent-encoding of non-ASCII text is not modelled.
- AiAdapter.GenerateRecipeProposal: the 500 ms simulated latency is not modelled.
- Toasts and navigation are recorded as values. Their rendering, React hooks, modals and focus handling are not modelled.
- `generateRequestId` (random ids) is not modelled, and neither are the thin route handlers or the client API wrappers.
- OpenRouterService.OpenRouterClient.constructor: the key check lives in `Create`. The constructor requires a non-blank key, the state `Create` establishes before calling it.

## Findings

| source | as written | input that shows it | evidently intended | confidence | as-written member | corrected member |
|---|---|---|---|---|---|---|
| src/components/recipes/edit/RecipeEditForm.tsx:140-146 | the catch block sets the title error through `updateFormState`, which re-validates the draft and, for a valid draft, replaces the errors with `{}` | any failed save of a valid draft, for example title "Soup", content "Hot" and an update request that throws | the inline error "Failed to update recipe. Please try again." is shown on the title after a failed save | not executed | EditForm.FailedSaveAsWritten (shown by EditForm.SaveFailureNotShownAsWritten) | EditForm.FailedSave (used by EditForm.Submit, proved in EditForm.SubmitOutcomes) |
| src/lib/services/generation.service.ts:20 | the request calls `userService.getUserDietPreferences`, but the user service defines only `getDietPreferences`; the call throws a TypeError before the proposal, the hashes, the insert and the error log | any generation request, for example title "Soup" and content "Hot"; the generations endpoint answers 500 | the user's diet preferences are read with `getDietPreferences`, and the request goes on to the insert unless that query fails | not executed | GenerationService.GenerateRecipeAsWritten (shown by GenerationService.AsWrittenAlwaysFails) | GenerationService.GenerateRecipe (proved in GenerationService.IntendedCanSucceed) |
| src/lib/utils/error-response.ts:1-26 | four of the six imported error classes are not exported by `errors.ts`; where the module loads at all, the `instanceof BadRequestError` test has `undefined` on its right and throws a TypeError for every value that is not a `NotFoundError` or a `ValidationError` | a plain `Error("Unauthorized")` | the table answers every thrown value, here with 401 "Unauthorized" | not executed | ErrorResponse.ErrorToApiResponseAsWritten (shown by ErrorResponse.AsWrittenThrowsOnPlainErrors) | ErrorResponse.ErrorToApiResponse |
