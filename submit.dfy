/** The two guards at the top of `handleSubmit`. */
module Submit {
  import opened JsText

  /** Which way `handleSubmit` leaves its guards: refused for an empty
      selection (the alert), refused for a blank prompt (the focus), or on to
      the dispatch. */
  datatype SubmitStatus = NoBotSelected | BlankPrompt | Dispatched

  /** The empty selection is tested first, then `prompt.trim() === ""`. */
  function Guard(selected: seq<string>, prompt: string): (s: SubmitStatus)
    ensures s == NoBotSelected <==> selected == []
    ensures s == BlankPrompt <==> selected != [] && Blank(prompt)
    ensures s == Dispatched <==> selected != [] && !Blank(prompt)
  {
    TrimEmptyIffBlank(prompt);
    if |selected| == 0 then NoBotSelected
    else if Trim(prompt) == "" then BlankPrompt
    else Dispatched
  }
}
