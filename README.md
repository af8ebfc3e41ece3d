# Apple Watch chatbot: request pipeline model

This project models the decision logic of the Apple Watch chatbot's server
side in Dafny:

- the `POST /api/chat` route (`ChatRoute`). It validates the request and
  checks that the Gemini key is set. It builds the prompt from the system
  prompt, the last ten turns of the conversation and the new message. It then
  maps the model's answer, or the error raised on the way, to an HTTP
  response;
- the reply parser shared by the route and the AI service (`ReplyParser`). It
  strips Markdown code fences from the model's text, decodes it as JSON,
  checks its shape, and otherwise falls back to the raw text;
- the AI service (`AiService`): the search-query optimizer's fallback rule and
  the response generator's error rules;
- the web search (`SearchService`): the AI-overview entry, the capped organic
  results, and the empty result without a key or on failure;
- the configuration (`Config`): the environment defaults and the check for
  missing keys.

Every network call is replaced by an input that says what the call came to:
`AiService.Upstream` for a Gemini request, `AiService.OptimizerCall` for the
optimizer's request, and `SearchService.SearchOutcome` for the search
provider. `JSON.parse` is a parameter `decode: string -> Option<JsonValue>`
(`Json.Decoder`). `None` means the parse threw. The JavaScript library
behaviour the code relies on is written out in `Strings`:

- the whitespace set of `\s` and `trim`;
- `includes` and `join`;
- decimal rendering of a number;
- `parseInt(_, 10)`.

`slice(0, end)` is written out in `SearchService.SliceEnd`.

The files are `common.dfy`, `strings.dfy`, `json.dfy`, `reply_parser.dfy`,
`ai_service.dfy`, `config.dfy`, `search_service.dfy` and `chat_route.dfy`. Give
all of them to `dafny verify` together.

Two behaviours of the code worth noting:

- `optimizeSearchQuery` returns `text.trim()` for any non-empty model text.
  Any text made only of whitespace therefore yields the empty query, not the
  user's query (`AiService.OptimizeWhitespaceOnly`).
- `SEARCH_RESULTS_COUNT` goes through `parseInt`. The organic cap is therefore
  not always a non-negative count. A non-numeric value gives no organic
  results, and a negative value drops that many results from the end
  (`SearchService.OrganicResultsOddCounts`).

## Model

| member | source | states |
|---|---|---|
| ReplyParser.Clean | src/lib/services/ai.ts:91-94 | the cleaned text neither starts nor ends with whitespace and contains no "```" at all |
| ReplyParser.ParseReply | src/lib/services/ai.ts:86-113 | citations are present only if the cleaned text decoded to a value of the accepted shape, and the reply is then that value's reading; when decoding fails the reply is the raw, uncleaned text with no citations |
| ReplyParser.ParseReplyStructured | src/lib/services/ai.ts:96-106 | when the decoded value's `message` is a string, the reply's message is that string and its citations are the decoded `citations` if that is an array, absent otherwise |
| ReplyParser.ParseReplyFallback | src/lib/services/ai.ts:99-112 | when the decoded value's `message` is missing or not a string, the reply is exactly the raw text with no citations |
| ReplyParser.ParseReplyRoundTrip | src/lib/services/ai.ts:86-113 | a reply serialised as a JSON object and decoded from the cleaned text is returned unchanged |
| ReplyParser.StructuredToJson | src/lib/services/ai.ts:99-105 | the shape check reads back exactly the reply it is given as a JSON object |
| ReplyParser.RemovalLeavesNoFence | src/lib/services/ai.ts:93 | after the global removal of "```" and the whitespace after it, no "```" remains |
| ReplyParser.CleanWithoutBackticks | src/lib/services/ai.ts:91-94 | text holding no backtick loses nothing to cleaning but its outer whitespace |
| ReplyParser.CleanIdempotent | src/lib/services/ai.ts:91-94 | cleaning a cleaned text changes nothing |
| ReplyParser.FencedCleansLikeBare | src/lib/services/ai.ts:91-94 | for a payload without backticks, cleaning the payload wrapped in a "```json" fence gives the same text as cleaning the bare payload, namely the trimmed payload |
| ReplyParser.FencedParsesLikeBare | src/lib/services/ai.ts:86-106 | a well-shaped payload without backticks parses to the same reply whether fenced or bare |
| AiService.OptimizeSearchQuery | src/lib/services/ai.ts:23-36 | the trimmed model text when the call answered with non-empty text; the user's query unchanged on a throw or a missing or empty text |
| AiService.OptimizeWhitespaceOnly | src/lib/services/ai.ts:26-29 | every non-empty model text made only of whitespace yields the empty query, whatever the user asked |
| AiService.GenerateGeminiResponse | src/lib/services/ai.ts:63-83 | a throw propagates; a non-ok status fails with "Gemini API error: <status> - <body>"; an ok status without text fails with "No response text received from Gemini API"; otherwise the result is the parse of the text |
| AiService.UpstreamErrorCarriesStatus | src/lib/services/ai.ts:71-74 | the error message contains the status in decimal, and parsing the number after the fixed prefix gives back the status |
| AiService.GeneratedReplyFromText | src/lib/services/ai.ts:71-83 | generation succeeds exactly when the response is ok and carries non-empty text; a successful reply without citations whose message differs from the text came from a successful decode |
| Config.LoadConfig | src/lib/config.ts:1-6 | `isDev` holds exactly when NODE_ENV is "development"; each key is its variable's value when set and "" when unset, so it is empty exactly when its variable is unset or empty; the result count is 5 when SEARCH_RESULTS_COUNT is unset or empty |
| Config.ConfigDefaults | src/lib/config.ts:1-6 | with nothing set, both keys are "", the result count is 5 and `isDev` is false |
| Config.ConfigCountRoundTrip | src/lib/config.ts:4 | SEARCH_RESULTS_COUNT set to the decimal rendering of n gives the count n |
| Config.ValidateConfig | src/lib/config.ts:8-16 | throws exactly when a key is empty, with "Missing environment variables: " followed by the missing names, GEMINI_API_KEY before SEARCH_API_KEY, joined by ", " |
| SearchService.SearchWeb | src/lib/services/search.ts:5-58 | empty when the search key is empty or the request throws; otherwise the overview entry, if any, followed by the capped organic results |
| SearchService.OverviewComesFirst | src/lib/services/search.ts:38-50 | a non-empty flattened overview is the first entry, titled "AI Overview" with link "#", position 0 and the flattened text as snippet, and the organic results follow unchanged |
| SearchService.OrganicResultsCapped | src/lib/services/search.ts:25-51 | for a non-negative count n, the organic results are the first min(n, available) provider results in order, none without `organic_results`, and the whole list has at most n + 1 entries |
| SearchService.OrganicResultsOddCounts | src/lib/services/search.ts:49 | a non-numeric count gives no organic results, and a count of -k drops the last k |
| SearchService.DropEmptyNone | src/lib/services/search.ts:35 | the filter leaves nothing exactly when every contribution is empty |
| SearchService.FlattenOverviewEmpty | src/lib/services/search.ts:29-38 | the flattened overview is empty exactly when no block contributes text |
| SearchService.FlattenOverviewConcat | src/lib/services/search.ts:29-36 | flattening works block by block in order: two runs of blocks flatten to their texts joined by a line feed, an empty one dropped |
| SearchService.FlattenOneBlock | src/lib/services/search.ts:30-34 | a single block flattens to its own contribution: its non-empty answer, else its items' answers joined by line feeds, else nothing |
| SearchService.FlattenAnswerThenItems | src/lib/services/search.ts:29-36 | an answer block followed by an item block flattens to the answer, a line feed, and the items' answers one per line |
| ChatRoute.RecentHistory | src/app/api/chat/route.ts:105 | the window holds min(10, n) turns and is the last part of the history, in its original order |
| ChatRoute.BuildContext | src/app/api/chat/route.ts:97-114 | the grown prompt equals the system prompt, the "Recent conversation" block for a non-empty history, and the message cue; it always starts with the system prompt and a blank line and ends with "User: <message>\n\nYou:" |
| ChatRoute.AppendTurns | src/app/api/chat/route.ts:106-110 | the loop appends exactly the rendered lines of the window's turns, in order, after what the prompt held |
| ChatRoute.ContextAffixes | src/app/api/chat/route.ts:97-114 | every prompt, whatever the history, starts with the system prompt and a blank line and ends with the message cue |
| ChatRoute.ContextWithoutHistory | src/app/api/chat/route.ts:100-114 | an absent and an empty history give the same prompt, with no "Recent conversation" block |
| ChatRoute.RenderTurnsConcat | src/app/api/chat/route.ts:107-110 | the rendering of two runs of turns is the rendering of the first followed by that of the second |
| ChatRoute.RenderedTurnInPlace | src/app/api/chat/route.ts:107-110 | each turn of the window is rendered as its own "User: " or "You: " line, in place between the lines of the turns before and after it |
| ChatRoute.OmitEmptyCitations | src/app/api/chat/route.ts:198-203 | citations are kept exactly when present and non-empty, and then unchanged |
| ChatRoute.ClassifyError | src/app/api/chat/route.ts:212-240 | 401 exactly for a key error; 429 exactly for a quota error that is not a key error; 400 exactly for a safety error that is neither; 500 otherwise, including for a thrown non-Error |
| ChatRoute.ClassifyEmbeddedKeyError | src/app/api/chat/route.ts:215-220 | any message embedding "API_KEY_INVALID" is classified 401 |
| ChatRoute.Post | src/app/api/chat/route.ts:58-243 | an unreadable body is classified like any thrown error; an invalid message gives 400 and a missing key 500, both before any prompt is sent; otherwise the prompt sent is the conversation context, a throw is classified, a non-ok status is passed through with the upstream error text, an ok answer without text gives 500, and an answer with text gives 200 with the parsed message and the non-empty citations |

## Left out

- The outbound requests (the Gemini REST calls, the search provider call) are not made. Each is replaced by an input describing its outcome: a throw, or a status with the body text and the candidate text. The request bodies, URLs and generation settings are not modelled.
- `JSON.parse` is an abstract decoder parameter. The model does not relate it to RFC 8259.
- `request.json()` is modelled as either a throw or the two fields read. Conversation turns are typed records; the route casts them without checking, so malformed turns are outside the model.
- The candidate text is modelled as a string or nothing. A non-string truthy value there (which `trim` would reject) is outside the model.
- The system prompt of the route and the optimizer's prompt template are prose constants. The route takes the system prompt as a parameter, and the optimizer's prompt is not modelled.
- The search query is only forwarded to the provider, so it does not appear in `SearchService.SearchWeb`.
- The route builds its prompt and parses the reply inline. Its copy of the reply parser is the same as the AI service's, so one definition (`ReplyParser.ParseReply`) stands for both. The route calls neither the optimizer nor the search service, and the model keeps it that way.
- Logging, the `NODE_TLS_REJECT_UNAUTHORIZED` environment write, the Firecrawl image lookup, the diagnostic test route and the React user interface are not part of this model.
- `Config.LoadConfig`: `parseInt` is modelled on unbounded integers, so digit strings beyond double precision are not rounded as in JavaScript.
- HTTP statuses are limited to 200-599, the statuses `fetch` reports for a received response.
