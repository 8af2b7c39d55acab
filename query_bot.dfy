/**
 * The `/api/queryBot` route: three vendor adapters that each reduce one
 * upstream HTTP reply to a single string, and the POST handler that picks
 * one adapter by the `bot` id and turns every adapter error into text.
 *
 * The network is not modelled: what `fetch` and `res.json()` produce for a
 * vendor is an input (`Upstream`), and whatever they throw is `Thrown`.
 */
module QueryBot {
  import opened Wrappers
  import opened JsText

  /** The `error` object some vendors return beside a failed status. */
  datatype ErrorBody = ErrorBody(message: Option<string>)

  /** OpenAI chat completion reply: `{ error?, choices?: [{ message?: { content? } }] }`. */
  datatype OpenAIMessage = OpenAIMessage(content: Option<string>)
  datatype OpenAIChoice = OpenAIChoice(message: Option<OpenAIMessage>)
  datatype OpenAIData = OpenAIData(error: Option<ErrorBody>, choices: Option<seq<OpenAIChoice>>)

  /** Claude reply: `{ error?, completion?, content?: [{ text? }] }`. The adapter
      reads only `completion`; `content` is here to show that it is ignored. */
  datatype ClaudeBlock = ClaudeBlock(text: Option<string>)
  datatype ClaudeData = ClaudeData(error: Option<ErrorBody>, completion: Option<string>,
                                   content: Option<seq<ClaudeBlock>>)

  /** Gemini reply: `{ error?, candidates?: [{ content?: { parts?: [{ text? }] } }] }`. */
  datatype GeminiPart = GeminiPart(text: Option<string>)
  datatype GeminiContent = GeminiContent(parts: Option<seq<GeminiPart>>)
  datatype GeminiCandidate = GeminiCandidate(content: Option<GeminiContent>)
  datatype GeminiData = GeminiData(error: Option<ErrorBody>, candidates: Option<seq<GeminiCandidate>>)

  /** What awaiting `fetch(...)` and then `res.json()` yields: the status flag
      `res.ok` with the parsed body, or the message of the error thrown. */
  datatype Upstream<D> = Received(ok: bool, data: D) | Thrown(message: string)

  /** What an adapter call settles to: the returned text or the error's message. */
  datatype Outcome = Success(text: string) | Failure(message: string)

  /** The three adapters, in the order the handler tests their ids. */
  datatype Adapter = OpenAI | Claude | Gemini

  /** What each vendor would answer to this request. Only the selected one is consulted. */
  datatype UpstreamReplies = UpstreamReplies(openai: Upstream<OpenAIData>,
                                             claude: Upstream<ClaudeData>,
                                             gemini: Upstream<GeminiData>)

  /** The JSON body `{ response }` the handler answers with. */
  datatype ResponseBody = ResponseBody(response: string)

  const NoResponse := "No response"
  const UnknownBot := "Unknown bot"
  const FailurePrefix := "\U{274C} Failed to query "
  /** The initial value of the handler's `result`. */
  const Placeholder := "\U{26A0}\U{FE0F} Error"

  /** The id the handler compares `bot` with. */
  function Id(a: Adapter): string
  {
    match a
    case OpenAI => "openai"
    case Claude => "claude"
    case Gemini => "gemini"
  }

  /** The generic error message each adapter falls back on. */
  function DefaultError(a: Adapter): string
  {
    match a
    case OpenAI => "OpenAI Error"
    case Claude => "Claude Error"
    case Gemini => "Gemini Error"
  }

  /** `data.error?.message || fallback` */
  function ErrorText(error: Option<ErrorBody>, fallback: string): string
  {
    Or(if error.Some? then error.value.message else None, fallback)
  }

  /** `data.choices?.[0]?.message?.content` */
  function OpenAIText(d: OpenAIData): Option<string>
  {
    match d.choices
    case None => None
    case Some(cs) =>
      if |cs| == 0 then None
      else match cs[0].message
        case None => None
        case Some(m) => m.content
  }

  /** `data.completion` */
  function ClaudeText(d: ClaudeData): Option<string>
  {
    d.completion
  }

  /** `data.candidates?.[0]?.content?.parts?.[0]?.text` */
  function GeminiText(d: GeminiData): Option<string>
  {
    match d.candidates
    case None => None
    case Some(cs) =>
      if |cs| == 0 then None
      else match cs[0].content
        case None => None
        case Some(c) =>
          match c.parts
          case None => None
          case Some(ps) => if |ps| == 0 then None else ps[0].text
  }

  /** The common shape of the three adapters once the body is parsed:
      `if (!res.ok) throw new Error(error?.message || fallback); return text || "No response"`. */
  function Settle<D>(u: Upstream<D>, error: D -> Option<ErrorBody>, text: D -> Option<string>,
                     fallback: string): (r: Outcome)
    requires fallback != ""
    ensures u.Thrown? ==> r == Failure(u.message)
    ensures u.Received? ==> (r.Success? <==> u.ok)
    ensures u.Received? && !u.ok ==>
              (match error(u.data)
               case Some(ErrorBody(Some(m))) => r.message == (if m != "" then m else fallback)
               case _ => r.message == fallback)
    ensures u.Received? && u.ok ==>
              (match text(u.data)
               case Some(t) => r.text == (if t != "" then t else NoResponse)
               case None => r.text == NoResponse)
    ensures r.Success? ==> r.text != ""
    ensures u.Received? ==> (r.Success? && r.text != "") || (r.Failure? && r.message != "")
  {
    match u
    case Thrown(m) => Failure(m)
    case Received(ok, d) =>
      if !ok then Failure(ErrorText(error(d), fallback))
      else Success(Or(text(d), NoResponse))
  }

  /** `queryOpenAI` once the reply is in: `data.error?.message || "OpenAI Error"`
      on a failed status, `data.choices?.[0]?.message?.content || "No response"` otherwise. */
  function QueryOpenAI(u: Upstream<OpenAIData>): (r: Outcome)
    ensures u.Thrown? ==> r == Failure(u.message)
    ensures u.Received? && !u.ok ==> r == Failure(ErrorText(u.data.error, "OpenAI Error"))
    ensures u.Received? && u.ok ==> r == Success(Or(OpenAIText(u.data), NoResponse))
  {
    Settle(u, (d: OpenAIData) => d.error, OpenAIText, DefaultError(OpenAI))
  }

  /** `queryClaude` once the reply is in: `data.error?.message || "Claude Error"`
      on a failed status, `data.completion || "No response"` otherwise. */
  function QueryClaude(u: Upstream<ClaudeData>): (r: Outcome)
    ensures u.Thrown? ==> r == Failure(u.message)
    ensures u.Received? && !u.ok ==> r == Failure(ErrorText(u.data.error, "Claude Error"))
    ensures u.Received? && u.ok ==> r == Success(Or(u.data.completion, NoResponse))
  {
    Settle(u, (d: ClaudeData) => d.error, ClaudeText, DefaultError(Claude))
  }

  /** `queryGemini` once the reply is in: `data.error?.message || "Gemini Error"`
      on a failed status, `data.candidates?.[0]?.content?.parts?.[0]?.text || "No response"` otherwise. */
  function QueryGemini(u: Upstream<GeminiData>): (r: Outcome)
    ensures u.Thrown? ==> r == Failure(u.message)
    ensures u.Received? && !u.ok ==> r == Failure(ErrorText(u.data.error, "Gemini Error"))
    ensures u.Received? && u.ok ==> r == Success(Or(GeminiText(u.data), NoResponse))
  {
    Settle(u, (d: GeminiData) => d.error, GeminiText, DefaultError(Gemini))
  }

  /** Calls the adapter `a` on the reply its vendor gives. Whatever the
      adapter, a success carries text. */
  function Invoke(a: Adapter, u: UpstreamReplies): (r: Outcome)
    ensures r.Success? ==> r.text != ""
  {
    match a
    case OpenAI => QueryOpenAI(u.openai)
    case Claude => QueryClaude(u.claude)
    case Gemini => QueryGemini(u.gemini)
  }

  /** The `if / else if` chain of the handler: exact comparison with
      "openai", then "claude", then "gemini"; any other id selects nothing. */
  function Route(bot: string): (r: Option<Adapter>)
    ensures r == Some(OpenAI) <==> bot == "openai"
    ensures r == Some(Claude) <==> bot == "claude"
    ensures r == Some(Gemini) <==> bot == "gemini"
    ensures r.Some? ==> Id(r.value) == bot
  {
    if bot == "openai" then Some(OpenAI)
    else if bot == "claude" then Some(Claude)
    else if bot == "gemini" then Some(Gemini)
    else None
  }

  /** The POST handler after the request body has been parsed into `bot`.
      The prompt only shapes the upstream requests, whose replies are `u`.
      An id no adapter answers to gets "Unknown bot", and every path sets a
      non-empty response. */
  function Post(bot: string, u: UpstreamReplies): (r: ResponseBody)
    ensures Route(bot).None? ==> r.response == UnknownBot
    ensures r.response != ""
  {
    match Route(bot)
    case None => ResponseBody(UnknownBot)
    case Some(a) =>
      match Invoke(a, u)
      case Success(t) => ResponseBody(t)
      case Failure(m) =>
        var w := FailurePrefix + bot + ": " + m;
        assert w[0] == FailurePrefix[0];
        ResponseBody(w)
  }

  // ---------------------------------------------------------------------
  // Properties of the adapters

  /** Every adapter turns a non-ok status into an error carrying the vendor's
      non-empty `error.message`, or else its own generic message. */
  lemma AdapterErrorMessage(a: Adapter, u: UpstreamReplies, m: Option<string>)
    requires match a
             case OpenAI => u.openai.Received? && !u.openai.ok && u.openai.data.error == Some(ErrorBody(m))
             case Claude => u.claude.Received? && !u.claude.ok && u.claude.data.error == Some(ErrorBody(m))
             case Gemini => u.gemini.Received? && !u.gemini.ok && u.gemini.data.error == Some(ErrorBody(m))
    ensures Invoke(a, u) == Failure(if m.Some? && m.value != "" then m.value else DefaultError(a))
  {
  }

  /** With no `error` object at all, a non-ok status gives the generic message. */
  lemma AdapterErrorWithoutBody(a: Adapter, u: UpstreamReplies)
    requires match a
             case OpenAI => u.openai.Received? && !u.openai.ok && u.openai.data.error.None?
             case Claude => u.claude.Received? && !u.claude.ok && u.claude.data.error.None?
             case Gemini => u.gemini.Received? && !u.gemini.ok && u.gemini.data.error.None?
    ensures Invoke(a, u) == Failure(DefaultError(a))
  {
  }

  /** An exception from `fetch` or `res.json()` escapes the adapter unchanged. */
  lemma AdapterPassesThrown(a: Adapter, u: UpstreamReplies, m: string)
    requires match a
             case OpenAI => u.openai == Thrown(m)
             case Claude => u.claude == Thrown(m)
             case Gemini => u.gemini == Thrown(m)
    ensures Invoke(a, u) == Failure(m)
  {
  }

  /** An adapter that succeeds never returns the empty string, and an ok
      status always succeeds. */
  lemma AdapterSuccessNonEmpty(a: Adapter, u: UpstreamReplies)
    ensures Invoke(a, u).Success? ==> Invoke(a, u).text != ""
    ensures (match a
             case OpenAI => u.openai.Received? && u.openai.ok
             case Claude => u.claude.Received? && u.claude.ok
             case Gemini => u.gemini.Received? && u.gemini.ok) ==> Invoke(a, u).Success?
  {
  }

  /** A well-formed OpenAI reply carrying `t` yields `t` itself. */
  lemma OpenAIExtractsContent(t: string, rest: seq<OpenAIChoice>, error: Option<ErrorBody>)
    requires t != ""
    ensures QueryOpenAI(Received(true, OpenAIData(error,
              Some([OpenAIChoice(Some(OpenAIMessage(Some(t))))] + rest)))) == Success(t)
  {
  }

  /** Each missing link of `choices[0].message.content`, and an empty content,
      gives "No response" rather than an error. */
  lemma OpenAIMissingLinks(error: Option<ErrorBody>, rest: seq<OpenAIChoice>)
    ensures QueryOpenAI(Received(true, OpenAIData(error, None))) == Success(NoResponse)
    ensures QueryOpenAI(Received(true, OpenAIData(error, Some([])))) == Success(NoResponse)
    ensures QueryOpenAI(Received(true, OpenAIData(error, Some([OpenAIChoice(None)] + rest)))) == Success(NoResponse)
    ensures QueryOpenAI(Received(true, OpenAIData(error,
              Some([OpenAIChoice(Some(OpenAIMessage(None)))] + rest)))) == Success(NoResponse)
    ensures QueryOpenAI(Received(true, OpenAIData(error,
              Some([OpenAIChoice(Some(OpenAIMessage(Some(""))))] + rest)))) == Success(NoResponse)
  {
  }

  /** The Claude adapter yields a non-empty top-level `completion` and
      otherwise "No response", whatever `content` holds. */
  lemma ClaudeReadsCompletionOnly(error: Option<ErrorBody>, completion: Option<string>,
                                  content: Option<seq<ClaudeBlock>>)
    ensures QueryClaude(Received(true, ClaudeData(error, completion, content))) ==
            Success(if completion.Some? && completion.value != "" then completion.value else NoResponse)
  {
  }

  /** A well-formed Gemini reply carrying `t` yields `t` itself. */
  lemma GeminiExtractsText(t: string, moreParts: seq<GeminiPart>, moreCandidates: seq<GeminiCandidate>,
                           error: Option<ErrorBody>)
    requires t != ""
    ensures QueryGemini(Received(true, GeminiData(error,
              Some([GeminiCandidate(Some(GeminiContent(Some([GeminiPart(Some(t))] + moreParts))))]
                   + moreCandidates)))) == Success(t)
  {
  }

  /** Each missing link of `candidates[0].content.parts[0].text` gives "No response". */
  lemma GeminiMissingLinks(error: Option<ErrorBody>, moreParts: seq<GeminiPart>,
                           moreCandidates: seq<GeminiCandidate>)
    ensures QueryGemini(Received(true, GeminiData(error, None))) == Success(NoResponse)
    ensures QueryGemini(Received(true, GeminiData(error, Some([])))) == Success(NoResponse)
    ensures QueryGemini(Received(true, GeminiData(error,
              Some([GeminiCandidate(None)] + moreCandidates)))) == Success(NoResponse)
    ensures QueryGemini(Received(true, GeminiData(error,
              Some([GeminiCandidate(Some(GeminiContent(None)))] + moreCandidates)))) == Success(NoResponse)
    ensures QueryGemini(Received(true, GeminiData(error,
              Some([GeminiCandidate(Some(GeminiContent(Some([]))))] + moreCandidates)))) == Success(NoResponse)
    ensures QueryGemini(Received(true, GeminiData(error,
              Some([GeminiCandidate(Some(GeminiContent(Some([GeminiPart(None)] + moreParts))))]
                   + moreCandidates)))) == Success(NoResponse)
  {
  }

  // ---------------------------------------------------------------------
  // Properties of the handler

  /** `Id` and `Route` are inverse: an id routes to its adapter, and only the
      three ids route anywhere. */
  lemma RouteInvertsId(a: Adapter, bot: string)
    ensures Route(Id(a)) == Some(a)
    ensures Route(bot) == Some(a) ==> bot == Id(a)
  {
  }

  /** A successful adapter's text is the response, verbatim. */
  lemma PostSuccessVerbatim(bot: string, u: UpstreamReplies, a: Adapter, t: string)
    requires Route(bot) == Some(a) && Invoke(a, u) == Success(t)
    ensures Post(bot, u).response == t
  {
  }

  /** A failing adapter's message is wrapped, never propagated. */
  lemma PostFailureWrapped(bot: string, u: UpstreamReplies, a: Adapter, m: string)
    requires Route(bot) == Some(a) && Invoke(a, u) == Failure(m)
    ensures Post(bot, u).response == FailurePrefix + bot + ": " + m
  {
  }

  /** An unknown id gives "Unknown bot" whatever the vendors would answer:
      no adapter is consulted. */
  lemma PostUnknown(bot: string, u: UpstreamReplies, u': UpstreamReplies)
    requires bot != "openai" && bot != "claude" && bot != "gemini"
    ensures Post(bot, u).response == UnknownBot
    ensures Post(bot, u) == Post(bot, u')
  {
  }

  /** Exactly one adapter is consulted: replacing the other vendors' replies
      does not change the response. */
  lemma PostConsultsOnlySelected(bot: string, u: UpstreamReplies, u': UpstreamReplies)
    requires bot == "openai" ==> u.openai == u'.openai
    requires bot == "claude" ==> u.claude == u'.claude
    requires bot == "gemini" ==> u.gemini == u'.gemini
    ensures Post(bot, u) == Post(bot, u')
  {
  }

  /** The initial placeholder is never the answer of its own: the response
      equals it only when the selected adapter returned that very text. */
  lemma PostPlaceholderOnlyEchoed(bot: string, u: UpstreamReplies)
    requires Post(bot, u).response == Placeholder
    ensures Route(bot).Some? && Invoke(Route(bot).value, u) == Success(Placeholder)
  {
    match Route(bot)
    case None =>
    case Some(a) =>
  }
}
