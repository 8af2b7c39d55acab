# bot-search, modelled in Dafny

bot-search sends one prompt to several chat providers (ChatGPT, Claude, Gemini) and shows
their answers side by side. This project models the two parts of it that hold decisions
rather than plumbing:

- **The `queryBot` route** (`app/api/queryBot/route.ts`), in module `QueryBot`. The
  handler picks one of three adapters by the bot id. Each adapter reduces its vendor's
  reply to one string: an error message on a non-ok status, otherwise a nested text
  field, with `"No response"` when that field is missing or empty. Any adapter error is
  wrapped as `"❌ Failed to query <bot>: <message>"`. The vendor reply is an input
  (`Upstream`): either a parsed body with its `ok` flag, or an exception thrown by
  `fetch` or `res.json()`. The optional-chaining paths `a?.[0]?.b` become nested
  `Option`s and sequences, so a missing link at any depth is a case of the datatype.
- **The page state** (`app/page.tsx`):
  - The component's `useState` fields are the fields of class `HomePage.Home`, and each
    handler is a method on it.
  - The list logic is in pure modules: `Selection` (`toggleBot` and the `filter` it
    uses), `History` (the bounded, deduplicated search history) and `Submit` (the two
    guards of `handleSubmit`).
  - `Responses` is the fan-in of `handleSubmit`: one entry per selected bot in a fresh
    record. It also holds the single-key update of `regenerateResponse`.
  - `Clipboard` is the tag and `&nbsp;` stripping of `copyResponse`.
  - `JsText` holds the two JavaScript string behaviours the code relies on. One is `||`
    on strings, where `""`, `undefined` and `null` all fall through. The other is
    `String.prototype.trim`, with the ECMAScript whitespace set.

What each provider request settles to is an input: `FetchOutcome` for the submit,
`RegenerateOutcome` for a regenerate. `Promise.all` over the selected ids becomes the loop
of `Responses.Gather`; this is sound because each request writes only its own key of
`resObj`. `Gather` is proved equal to the map comprehension `Responses.ResponseMap`, and the
properties of the record are proved about that map.

The Claude adapter posts to Anthropic's `/v1/messages` endpoint (route.ts line 28), whose
reply carries its text in `content[0].text`, not `completion`. The adapter reads only the
top-level `completion` field (route.ts line 44). The model follows the code: `ClaudeData`
carries `content`, but the adapter ignores it, and `QueryBot.ClaudeReadsCompletionOnly`
states this.

## Model

| member | source | states |
|---|---|---|
| QueryBot.Settle | app/api/queryBot/route.ts:21-23 | An exception passes through as the failure. For a parsed body, the adapter succeeds exactly when the status is ok. On a non-ok status the failure message is the body's `error.message` when it is non-empty, and the vendor default when it is empty or missing. On an ok status the result is the extracted text when it is non-empty, otherwise "No response". A success is never empty. |
| QueryBot.QueryOpenAI | app/api/queryBot/route.ts:8-24 | A thrown error passes through. A non-ok reply fails with `data.error?.message` or "OpenAI Error". An ok reply succeeds with `choices[0].message.content` or "No response". `OpenAIExtractsContent` and `OpenAIMissingLinks` state each link of the path. |
| QueryBot.QueryClaude | app/api/queryBot/route.ts:27-45 | A thrown error passes through. A non-ok reply fails with `data.error?.message` or "Claude Error". An ok reply succeeds with `data.completion` or "No response". `ClaudeReadsCompletionOnly` shows that `content` is ignored. |
| QueryBot.QueryGemini | app/api/queryBot/route.ts:48-70 | A thrown error passes through. A non-ok reply fails with `data.error?.message` or "Gemini Error". An ok reply succeeds with `candidates[0].content.parts[0].text` or "No response". `GeminiExtractsText` and `GeminiMissingLinks` state each link of the path. |
| QueryBot.Invoke | app/api/queryBot/route.ts:78-80 | Whichever adapter is called, a success carries non-empty text. `AdapterErrorMessage`, `AdapterErrorWithoutBody`, `AdapterPassesThrown` and `AdapterSuccessNonEmpty` state its outcome in each case. |
| QueryBot.AdapterErrorMessage | app/api/queryBot/route.ts:22 | For each of the three adapters, a non-ok reply whose `error` object has message `m` fails with `m` when `m` is present and non-empty. Otherwise it fails with "OpenAI Error", "Claude Error" or "Gemini Error". |
| QueryBot.AdapterErrorWithoutBody | app/api/queryBot/route.ts:43 | A non-ok reply with no `error` object at all fails with the adapter's default message. |
| QueryBot.AdapterPassesThrown | app/api/queryBot/route.ts:21 | An exception from `fetch` or `res.json()` leaves the adapter as a failure with the same message. |
| QueryBot.AdapterSuccessNonEmpty | app/api/queryBot/route.ts:69 | Every adapter succeeds on an ok reply, and a successful adapter never returns "". |
| QueryBot.OpenAIExtractsContent | app/api/queryBot/route.ts:23 | An ok OpenAI reply whose `choices[0].message.content` is a non-empty `t` yields exactly `t`, whatever the other choices are. |
| QueryBot.OpenAIMissingLinks | app/api/queryBot/route.ts:23 | Missing `choices`, an empty `choices`, a missing `message`, a missing `content` and an empty `content` each yield "No response", not an error. |
| QueryBot.ClaudeReadsCompletionOnly | app/api/queryBot/route.ts:44 | An ok Claude reply yields its non-empty `completion`, otherwise "No response", whatever its `content` blocks hold. |
| QueryBot.GeminiExtractsText | app/api/queryBot/route.ts:69 | An ok Gemini reply whose `candidates[0].content.parts[0].text` is a non-empty `t` yields exactly `t`. |
| QueryBot.GeminiMissingLinks | app/api/queryBot/route.ts:69 | Each of the six missing or empty links on the `candidates[0].content.parts[0].text` path yields "No response". |
| QueryBot.Route | app/api/queryBot/route.ts:78-81 | The handler selects OpenAI if and only if the id is exactly "openai", and likewise Claude for "claude" and Gemini for "gemini". Any other id selects nothing. A selected adapter's id is the requested one. |
| QueryBot.RouteInvertsId | app/api/queryBot/route.ts:78-80 | Routing and the adapter ids are inverse in both directions. |
| QueryBot.Post | app/api/queryBot/route.ts:73-88 | An id that routes nowhere gets "Unknown bot", and every path sets a non-empty `response`. `PostSuccessVerbatim`, `PostFailureWrapped`, `PostUnknown` and `PostConsultsOnlySelected` give the exact response on each path. |
| QueryBot.PostSuccessVerbatim | app/api/queryBot/route.ts:77-87 | When the selected adapter succeeds with `t`, the body's `response` is `t` verbatim. |
| QueryBot.PostFailureWrapped | app/api/queryBot/route.ts:82-85 | When the selected adapter fails with `m`, the response is "❌ Failed to query " + bot + ": " + m. The error is caught, never propagated. |
| QueryBot.PostUnknown | app/api/queryBot/route.ts:81 | An id other than the three gives exactly "Unknown bot". It gives the same answer for any vendor replies, because no adapter is consulted. |
| QueryBot.PostConsultsOnlySelected | app/api/queryBot/route.ts:78-80 | The response depends only on the selected vendor's reply: changing the other two replies changes nothing. |
| QueryBot.PostPlaceholderOnlyEchoed | app/api/queryBot/route.ts:75-87 | The response is the initial placeholder "⚠️ Error" only when a routed adapter itself returned exactly that text. The placeholder is never left in place. |
| JsText.Or | app/page.tsx:240 | The `or` operator on an optional string `a` with fallback `b`: the result is `a` itself when `a` is present and non-empty, and otherwise `b`. A non-empty fallback gives a non-empty result. |
| JsText.TrimStart | app/page.tsx:211 | The result is a suffix of the input. What it drops is all whitespace, and it does not start with whitespace. |
| JsText.TrimEnd | app/page.tsx:211 | The result is a prefix of the input. What it drops is all whitespace, and it does not end with whitespace. |
| JsText.Trim | app/page.tsx:211 | The result is a contiguous middle of the input, and what is removed before and after it is all whitespace. A non-empty result neither starts nor ends with whitespace. |
| JsText.MiddleOf | app/page.tsx:211 | Dropping a blank prefix and then a blank suffix of what is left keeps a middle of the string, with blank text on both sides. |
| JsText.TrimEmptyIffBlank | app/page.tsx:211 | `prompt.trim() === ""` holds exactly when every character of the prompt is ECMAScript whitespace. |
| Selection.Without | app/page.tsx:193 | `filter(id => id !== x)` removes every occurrence of `x`, keeps every other element present in the list, never lengthens it, and changes nothing when `x` is absent. |
| Selection.WithoutIdempotent | app/page.tsx:193 | Filtering twice equals filtering once. |
| Selection.WithoutAppend | app/page.tsx:193 | Filtering a concatenation filters each part. |
| Selection.WithoutNoDuplicates | app/page.tsx:220 | Filtering keeps a duplicate-free list duplicate-free. |
| Selection.Toggled | app/page.tsx:191-195 | The toggled id is in the result if and only if it was absent before. Other ids keep their membership and their relative order. An absent id is appended at the end. A duplicate-free list stays duplicate-free. |
| Selection.ToggleTwiceAbsent | app/page.tsx:191-195 | Toggling an absent id twice restores the list. |
| Selection.ToggleTwicePresent | app/page.tsx:191-195 | Toggling a present id twice moves it to the end. |
| Selection.ToggleKeepsKnown | app/page.tsx:191-195 | Toggling one of the `BOTS` ids keeps the selection within the `BOTS` ids. |
| History.Pushed | app/page.tsx:220 | The new history starts with the prompt and holds it once. It has between 1 and 10 entries, and the rest are the old entries other than the prompt, in their original order, cut to fit. |
| History.PushedIdempotent | app/page.tsx:220 | Recording the same prompt twice gives the same history as recording it once. |
| History.PushedNoDuplicates | app/page.tsx:220 | A duplicate-free history stays duplicate-free. |
| History.PushedKeepsRecent | app/page.tsx:220 | For i < 9, the i-th older entry other than the prompt survives at position i + 1. The history is cut before that position exactly when i >= 9. |
| Submit.Guard | app/page.tsx:205-214 | An empty selection is refused first, whatever the prompt. A non-empty selection with an all-whitespace prompt is refused next. Everything else is dispatched, and each case is stated in both directions. |
| Responses.DemoResponse | app/page.tsx:244-249 | A canned demo text exists exactly for the three `BOTS` ids. |
| Responses.DemoQuotesPrompt | app/page.tsx:245-247 | A failed request's demo text contains the prompt verbatim between double quotes. |
| Responses.Entry | app/page.tsx:235-249 | A non-empty `data.response` is stored verbatim, and a missing or empty one becomes "Response not available". A non-ok status or a thrown error stores the demo text for a `BOTS` id, and "Error: Could not fetch response" for any other id. No entry is empty. |
| Responses.ResponseMap | app/page.tsx:217-251 | The record's keys are exactly the selected ids. `ResponseMapIsolation`, `ResponseMapOrderFree` and `ResponseMapExtend` state its other properties, and `Gather` is proved equal to it. |
| Responses.ResponseMapExtend | app/page.tsx:249 | One more request adds its own key with its `Entry` and changes no other key. |
| Responses.Gather | app/page.tsx:217-251 | The loop's record is exactly the comprehension `ResponseMap`: its keys are the selected ids and nothing else, and each holds that bot's `Entry`. |
| Responses.ResponseMapIsolation | app/page.tsx:225-251 | A bot's entry depends only on its own request: other bots' failures neither remove nor change it. |
| Responses.ResponseMapOrderFree | app/page.tsx:225-251 | The record does not depend on the order of the selection or on repeated ids. |
| Responses.Regenerated | app/page.tsx:300-303 | A settled regenerate adds or replaces only `responses[botId]`. A thrown error leaves the record as it was, and every other key is unchanged either way. |
| Responses.PageIdsAreRouted | app/page.tsx:53-57 | Every `BOTS` id reaches an adapter of the route. For any vendor replies, the page receives "Unknown bot" for one of its ids only when that adapter itself returned exactly that text. |
| Responses.RouteAnswerStoredVerbatim | app/page.tsx:240 | Whatever the route answers reaches the record verbatim, because the route never answers "". |
| Responses.MixedDispatchExample | app/page.tsx:225-251 | OpenAI answers "Hello!" and Claude throws "rate limited". The record is then exactly `{openai: "Hello!", claude: "❌ Failed to query claude: rate limited"}`. |
| Clipboard.StripTags | app/page.tsx:279 | Removing `<...>` spans never lengthens the text or adds a `>`, and leaves no `>` after any `<`. Text without `<` is unchanged. |
| Clipboard.ReplaceNbsp | app/page.tsx:279 | Replacing `&nbsp;` never lengthens the text or adds a `>`. Text without `&nbsp;` is unchanged. |
| Clipboard.AtNbspIsPrefix | app/page.tsx:279 | The character-wise test used by the replacement is a comparison with the literal `&nbsp;`. |
| Clipboard.NoNbspAnywhere | app/page.tsx:279 | Text without `&nbsp;` has no six consecutive characters spelling it. |
| Clipboard.NoTagSpanAt | app/page.tsx:279 | In text without tag spans, no `<` at index i has a `>` at any index j > i. |
| Clipboard.NoTagSpanSuffix | app/page.tsx:279 | Every suffix of text without tag spans has none either. |
| Clipboard.ReplacePrefix | app/page.tsx:279 | Up to the first space it produces, the replacement copies its input. |
| Clipboard.ReplaceLeavesNoNbsp | app/page.tsx:279 | No `&nbsp;` is left after the replacement, not even one formed across a replaced occurrence. |
| Clipboard.ReplaceKeepsNoTagSpan | app/page.tsx:279 | The replacement does not create a tag span. |
| Clipboard.CopyText | app/page.tsx:279 | The copied text has no `>` after any `<`, contains no `&nbsp;` and is no longer than the response. Text with neither `<` nor `&nbsp;` is copied unchanged. |
| Clipboard.StripTagsLeadingSpan | app/page.tsx:279 | A leading `<...>` span, up to its first `>`, is removed whole. |
| Clipboard.StripTagsKeepsPrefix | app/page.tsx:279 | Text without `<` at the front is kept as it is. |
| Clipboard.StripTagsDropsSpan | app/page.tsx:279 | In `a<tag>b`, where `a` has no `<` and `tag` has no `>`, the span is removed and `a` kept. |
| Clipboard.ReplaceNbspAt | app/page.tsx:279 | In `a&nbsp;b`, where `a` holds no `&nbsp;` of its own (it may hold other `&`), the entity becomes one space and `a` is kept. |
| Clipboard.StripTagsIdempotent | app/page.tsx:279 | Text without tag spans, as the first pass leaves it, is unchanged by a second pass. |
| Clipboard.CopyTextIdempotent | app/page.tsx:279 | Copying the copied text gives the same text. |
| HomePage.Home.constructor | app/page.tsx:165-169 | The initial state has an empty prompt and responses, is not loading, has every `BOTS` id selected and an empty history. |
| HomePage.Home.SetPrompt | app/page.tsx:265-275 | The prompt becomes the given text, and nothing else changes. |
| HomePage.Home.ToggleBot | app/page.tsx:191-195 | The selection becomes `Toggled` of the old one, and stays duplicate-free. |
| HomePage.Home.SelectAllBots | app/page.tsx:197-199 | The selection becomes the `BOTS` ids. |
| HomePage.Home.ClearSelection | app/page.tsx:201-203 | The selection becomes empty. |
| HomePage.Home.HandleSubmit | app/page.tsx:205-256 | The status is `Guard` of the selection and prompt. A refused submit changes neither the responses, the history nor `loading`. A dispatched one sets the history to `Pushed` and replaces the responses wholesale by `ResponseMap`, keyed exactly by the selection. It ends not loading, and the history stays duplicate-free and at most ten long. |
| HomePage.Home.Dispatch | app/page.tsx:216-254 | After the guards: the history is pushed, the responses become the gathered record, and `loading` ends false. |
| HomePage.Home.RegenerateResponse | app/page.tsx:288-310 | The responses become `Regenerated` of the old ones for that bot and outcome, and `loading` ends false. |

## Left out

- `formatResponse` (the markdown-to-HTML pass, app/page.tsx:6-51) is not modelled. It is a chain of regular-expression passes whose meaning depends on the JavaScript engine (lazy and multiline patterns, a callback for tables), and it only produces HTML for display.
- Network I/O is not modelled: every `fetch`, the vendor URLs, headers and request bodies, and the API keys read from the environment. Each request is replaced by the reply or outcome it settles to, given as an input.
- `Promise.all` concurrency is not modelled. The requests write distinct keys, so the model gathers them one after the other. Two racing regenerate calls for the same bot, where the last write wins, are not modelled.
- Parsing the request JSON in the route is not modelled; `bot` is taken to be a string. Thrown values that are not `Error` objects, formatted by the template's `${err}` branch, are not modelled either; a thrown error carries its message.
- `QueryBot.Settle`: a parsed vendor body of `null`, which makes `data.error` itself throw a `TypeError`, is not modelled. Fields are modelled as strings or missing, so the JavaScript truthiness of non-string values (numbers, objects) in `||` is not captured.
- `Responses.Regenerated`: `data.response` is taken to be a string, which the route always returns. A body without that field, which would store `undefined` under the key, is not modelled.
- `Responses.DemoResponse`: a lookup of `demoResponses` by an id that names an `Object.prototype` member (such as "constructor") is not modelled; such ids get "Error: Could not fetch response" in the model.
- `HomePage.Home.HandleSubmit`: the intermediate `loading == true` is set and cleared within the method, so another handler cannot observe it while the requests are pending.
- `showSuggestions`, the `alert` and focus calls, `console` logging, writing to the clipboard, ratings, `handleKeyPress` and all JSX are presentation only (app/page.tsx:70-162, 258-286, 313 on). `lib/aiClients.ts`, `components/ChatBotCard.tsx` and `components/ui/card.tsx` are not part of this model: the route and the page do not use their logic.
