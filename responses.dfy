/**
 * The fan-in of `handleSubmit`: one request to the route per selected bot,
 * each settled into one string of a fresh `Record<string, string>`; and
 * the single-key update of `regenerateResponse`.
 *
 * What each request settles to is an input (`FetchOutcome`). The requests
 * of `Promise.all` write to distinct keys, so they are gathered here one
 * after the other.
 */
module Responses {
  import opened Wrappers
  import opened JsText
  import opened Selection
  import QueryBot

  /** How the request for one bot settles: a parsed body whose `response`
      field may be missing, a status that is not ok, or a thrown error
      (network failure or a body that is not JSON). */
  datatype FetchOutcome = Answered(response: Option<string>) | HttpNotOk(status: int) | Threw(message: string)

  /** How the request of `regenerateResponse` settles: a parsed body, or an
      error thrown by `fetch` or `res.json()`. */
  datatype RegenerateOutcome = Parsed(response: string) | Rejected(message: string)

  const NotAvailable := "Response not available"
  const CouldNotFetch := "Error: Could not fetch response"

  /** The canned markdown of `demoResponses`, around the quoted prompt. */
  const OpenAIDemoTitle := "# ChatGPT Response\n\n**Question:** "
  const ClaudeDemoTitle := "# Claude AI Response\n\n**Your Question:** "
  const GeminiDemoTitle := "# Gemini AI Response\n\n**Query:** "
  const OpenAIDemoBody :=
    "\n\nThis is a **demo response** from ChatGPT. Your API endpoint returned an error.\n\n"
    + "## Features:\n- *Formatted text* rendering\n- **Bold** and *italic* support\n"
    + "- `Code highlighting`\n- Lists and more\n\n> Replace this with your actual API integration."
  const ClaudeDemoBody :=
    "\n\nThis is a **demo response** from Claude AI. Check your API configuration.\n\n"
    + "### Key Points:\n1. **API Integration** needed\n2. *Error handling* implemented\n"
    + "3. **Formatting** works correctly\n\n```javascript\n// Your API call should work like this\n"
    + "const response = await fetch('/api/queryBot', {\n  method: 'POST',\n"
    + "  body: JSON.stringify({ bot: 'claude', prompt })\n});\n```"
  const GeminiDemoBody :=
    "\n\n**Demo Mode Active** - Your API returned an error.\n\n## What's Working:\n"
    + "- \U{2705} *Text formatting*\n- \U{2705} **Bold and italic**\n- \U{2705} `Code blocks`\n"
    + "- \U{2705} Lists and structure\n\n### Next Steps:\n1. Check your `/api/queryBot` endpoint\n"
    + "2. Verify API keys and configuration\n3. Test individual bot integrations\n\n"
    + "> This demo shows how responses will be formatted once your API is working."

  /** The demo text up to and including the opening quote of the prompt. */
  function DemoHead(botId: string): (r: string)
    ensures |r| > 0 && r[|r| - 1] == '"'
  {
    (if botId == "openai" then OpenAIDemoTitle
     else if botId == "claude" then ClaudeDemoTitle
     else GeminiDemoTitle) + "\""
  }

  /** The demo text from the closing quote of the prompt on. */
  function DemoTail(botId: string): (r: string)
    ensures |r| > 0 && r[0] == '"'
  {
    "\"" + (if botId == "openai" then OpenAIDemoBody
            else if botId == "claude" then ClaudeDemoBody
            else GeminiDemoBody)
  }

  /** `demoResponses[botId]`: present only for the three ids of `BOTS`. */
  function DemoResponse(botId: string, prompt: string): (r: Option<string>)
    ensures r.Some? <==> botId in BotIds
  {
    if botId in BotIds then Some(DemoHead(botId) + prompt + DemoTail(botId)) else None
  }

  /** The value the `try`/`catch` of one request stores in `resObj[botId]`. */
  function Entry(botId: string, prompt: string, o: FetchOutcome): (r: string)
    ensures r != ""
    ensures o.Answered? && o.response.Some? && o.response.value != "" ==> r == o.response.value
    ensures o.Answered? && (o.response.None? || o.response == Some("")) ==> r == NotAvailable
    ensures !o.Answered? && botId in BotIds ==> Some(r) == DemoResponse(botId, prompt)
    ensures !o.Answered? && botId !in BotIds ==> r == CouldNotFetch
  {
    match o
    case Answered(response) => Or(response, NotAvailable)
    case _ => Or(DemoResponse(botId, prompt), CouldNotFetch)
  }

  /** The demo text of a failed request quotes the prompt verbatim. */
  lemma DemoQuotesPrompt(botId: string, prompt: string, o: FetchOutcome)
    requires !o.Answered? && botId in BotIds
    ensures var r, k := Entry(botId, prompt, o), |DemoHead(botId)|;
            0 < k && k + |prompt| < |r| && r[k - 1] == '"' && r[k..k + |prompt|] == prompt && r[k + |prompt|] == '"'
  {
    var r, k := Entry(botId, prompt, o), |DemoHead(botId)|;
    assert r == DemoHead(botId) + prompt + DemoTail(botId);
    assert r[k - 1] == DemoHead(botId)[k - 1];
    assert r[k + |prompt|] == DemoTail(botId)[0];
  }

  /** The record `handleSubmit` builds: one entry per selected id, nothing else. */
  function ResponseMap(selected: seq<string>, prompt: string, outcomeOf: string -> FetchOutcome): (r: map<string, string>)
    ensures forall b :: b in r <==> b in selected
  {
    map b | b in selected :: Entry(b, prompt, outcomeOf(b))
  }

  /** One more request adds its own entry and changes no other. */
  lemma ResponseMapExtend(selected: seq<string>, botId: string, prompt: string, outcomeOf: string -> FetchOutcome)
    ensures ResponseMap(selected + [botId], prompt, outcomeOf)
            == ResponseMap(selected, prompt, outcomeOf)[botId := Entry(botId, prompt, outcomeOf(botId))]
  {
  }

  /** `await Promise.all(selectedBots.map(...))` over a fresh `resObj`. */
  method Gather(selected: seq<string>, prompt: string, outcomeOf: string -> FetchOutcome)
    returns (resObj: map<string, string>)
    ensures resObj == ResponseMap(selected, prompt, outcomeOf)
    ensures resObj.Keys == set b | b in selected
    ensures forall b :: b in selected ==> resObj[b] == Entry(b, prompt, outcomeOf(b))
  {
    resObj := map[];
    for i := 0 to |selected|
      invariant resObj == ResponseMap(selected[..i], prompt, outcomeOf)
    {
      var botId := selected[i];
      assert selected[..i + 1] == selected[..i] + [botId];
      ResponseMapExtend(selected[..i], botId, prompt, outcomeOf);
      resObj := resObj[botId := Entry(botId, prompt, outcomeOf(botId))];
    }
    assert selected[..|selected|] == selected;
  }

  /** One bot's entry depends on that bot's request alone: a failure
      elsewhere neither removes nor alters it. */
  lemma ResponseMapIsolation(selected: seq<string>, prompt: string,
                             outcomeOf: string -> FetchOutcome, outcomeOf': string -> FetchOutcome, b: string)
    requires b in selected && outcomeOf(b) == outcomeOf'(b)
    ensures b in ResponseMap(selected, prompt, outcomeOf) && b in ResponseMap(selected, prompt, outcomeOf')
    ensures ResponseMap(selected, prompt, outcomeOf)[b] == ResponseMap(selected, prompt, outcomeOf')[b]
  {
  }

  /** The record does not depend on the order of the selection. */
  lemma ResponseMapOrderFree(selected: seq<string>, selected': seq<string>, prompt: string,
                             outcomeOf: string -> FetchOutcome)
    requires forall b :: b in selected <==> b in selected'
    ensures ResponseMap(selected, prompt, outcomeOf) == ResponseMap(selected', prompt, outcomeOf)
  {
  }

  /** `setResponses(prev => ({ ...prev, [botId]: data.response }))` when the
      request settles, and no update when it throws. */
  function Regenerated(responses: map<string, string>, botId: string, o: RegenerateOutcome): (r: map<string, string>)
    ensures o.Parsed? ==> r.Keys == responses.Keys + {botId} && r[botId] == o.response
    ensures o.Rejected? ==> r == responses
    ensures forall k :: k != botId ==> (k in r <==> k in responses) && (k in r ==> r[k] == responses[k])
  {
    match o
    case Parsed(response) => responses[botId := response]
    case Rejected(_) => responses
  }

  /** The page's ids all reach an adapter, so the route answers them
      "Unknown bot" only when that adapter itself returned that text. */
  lemma PageIdsAreRouted(botId: string, u: QueryBot.UpstreamReplies)
    requires botId in BotIds
    ensures QueryBot.Route(botId).Some?
    ensures QueryBot.Post(botId, u).response == QueryBot.UnknownBot ==>
              QueryBot.Invoke(QueryBot.Route(botId).value, u) == QueryBot.Success(QueryBot.UnknownBot)
  {
  }

  /** Whenever the route answers a request, its `response` reaches the page
      verbatim, since it is never empty. */
  lemma RouteAnswerStoredVerbatim(botId: string, prompt: string, u: QueryBot.UpstreamReplies)
    ensures Entry(botId, prompt, Answered(Some(QueryBot.Post(botId, u).response))) == QueryBot.Post(botId, u).response
  {
    var r := QueryBot.Post(botId, u).response;
    assert r != "";
  }

  /** One provider answers, one fails: both entries are present, the answer
      verbatim and the failure wrapped. */
  lemma MixedDispatchExample(u: QueryBot.UpstreamReplies, outcomeOf: string -> FetchOutcome)
    requires u.openai == QueryBot.Received(true, QueryBot.OpenAIData(None,
               Some([QueryBot.OpenAIChoice(Some(QueryBot.OpenAIMessage(Some("Hello!"))))])))
    requires u.claude == QueryBot.Thrown("rate limited")
    requires forall b :: outcomeOf(b) == Answered(Some(QueryBot.Post(b, u).response))
    ensures ResponseMap(["openai", "claude"], "hi", outcomeOf)
            == map["openai" := "Hello!", "claude" := "\U{274C} Failed to query claude: rate limited"]
  {
    var failed := QueryBot.Post("claude", u).response;
    assert QueryBot.Post("openai", u).response == "Hello!";
    assert failed == QueryBot.FailurePrefix + "claude" + ": " + "rate limited";
    assert failed == "\U{274C} Failed to query claude: rate limited";
    assert Entry("openai", "hi", outcomeOf("openai")) == "Hello!";
    assert Entry("claude", "hi", outcomeOf("claude")) == failed;
  }
}
