/**
 * The state of the `Home` page component and the handlers that change it.
 * Each `useState` pair becomes a field; each setter call becomes an
 * assignment, in the order the handler makes it.
 */
module HomePage {
  import opened Selection
  import opened History
  import opened Submit
  import opened Responses
  import opened JsText

  class Home {
    var prompt: string
    var responses: map<string, string>
    var loading: bool
    var selectedBots: seq<string>
    var searchHistory: seq<string>

    /** What every handler keeps: no id is selected twice, and the history
        holds distinct prompts, at most ten. */
    ghost predicate Valid()
      reads this
    {
      && NoDuplicates(selectedBots)
      && NoDuplicates(searchHistory)
      && |searchHistory| <= HistoryLimit
    }

    /** The initial state: empty prompt and responses, every bot selected. */
    constructor ()
      ensures Valid()
      ensures prompt == "" && responses == map[] && !loading
      ensures selectedBots == BotIds && searchHistory == []
    {
      prompt := "";
      responses := map[];
      loading := false;
      selectedBots := BotIds;
      searchHistory := [];
    }

    /** The prompt as the user edits it, or picks a suggestion or a history item. */
    method SetPrompt(text: string)
      requires Valid()
      modifies this`prompt
      ensures Valid() && prompt == text
    {
      prompt := text;
    }

    method ToggleBot(botId: string)
      requires Valid()
      modifies this`selectedBots
      ensures Valid()
      ensures selectedBots == Toggled(old(selectedBots), botId)
    {
      selectedBots := Toggled(selectedBots, botId);
    }

    method SelectAllBots()
      requires Valid()
      modifies this`selectedBots
      ensures Valid() && selectedBots == BotIds
    {
      selectedBots := BotIds;
    }

    method ClearSelection()
      requires Valid()
      modifies this`selectedBots
      ensures Valid() && selectedBots == []
    {
      selectedBots := [];
    }

    /** `handleSubmit`, with `outcomeOf(b)` standing for how the request for
        bot `b` settles. A refused submit changes nothing; a dispatched one
        records the prompt and replaces the responses wholesale. */
    method HandleSubmit(outcomeOf: string -> FetchOutcome) returns (status: SubmitStatus)
      requires Valid()
      modifies this`responses, this`loading, this`searchHistory
      ensures Valid()
      ensures status == Guard(old(selectedBots), old(prompt))
      ensures status != Dispatched ==>
                responses == old(responses) && searchHistory == old(searchHistory) && loading == old(loading)
      ensures status == Dispatched ==>
                && responses == ResponseMap(selectedBots, prompt, outcomeOf)
                && responses.Keys == set b | b in selectedBots
                && searchHistory == Pushed(old(searchHistory), prompt)
                && !loading
    {
      status := Guard(selectedBots, prompt);
      if |selectedBots| == 0 {
        assert status == NoBotSelected;
        return;
      }
      TrimEmptyIffBlank(prompt);
      if Trim(prompt) == "" {
        assert status == BlankPrompt;
        return;
      }
      assert status == Dispatched;
      Dispatch(outcomeOf);
    }

    /** The part of `handleSubmit` after its guards. */
    method Dispatch(outcomeOf: string -> FetchOutcome)
      requires Valid()
      modifies this`responses, this`loading, this`searchHistory
      ensures Valid()
      ensures responses == ResponseMap(selectedBots, prompt, outcomeOf)
      ensures responses.Keys == set b | b in selectedBots
      ensures searchHistory == Pushed(old(searchHistory), prompt)
      ensures !loading
    {
      loading := true;
      PushedNoDuplicates(searchHistory, prompt);
      searchHistory := Pushed(searchHistory, prompt);
      var resObj := Gather(selectedBots, prompt, outcomeOf);
      responses := resObj;
      loading := false;
    }

    /** `regenerateResponse(botId)`: only the entry of `botId` may change. */
    method RegenerateResponse(botId: string, outcome: RegenerateOutcome)
      requires Valid()
      modifies this`responses, this`loading
      ensures Valid()
      ensures responses == Regenerated(old(responses), botId, outcome)
      ensures !loading
    {
      loading := true;
      responses := Regenerated(responses, botId, outcome);
      loading := false;
    }
  }
}
