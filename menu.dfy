/** One DTMF menu interaction (`WazoIVRPlugin._handle_menu`). */
module Menu {
  import opened Wrappers
  import opened Flow

  /** A value an engine component hands back, with the commands it issued to get it. */
  datatype Outcome = Outcome(value: string, trace: seq<Command>)

  /** Plays the node's prompt, collects one digit (the collaborator's answer
      is `dtmf`; "" when the caller pressed nothing) and returns the option
      key the caller chose, or the fallback sentinel when the input matches no
      option. */
  function HandleMenu(node: Node, dtmf: string): (r: Outcome)
    // exactly one prompt, then exactly one collection of one digit within 5 s
    ensures r.trace == [Say(node.prompt.GetOr(InvalidMenuPrompt)), CollectDtmf(DtmfTimeout, DtmfDigits)]
    // the collected digits are returned exactly when they name an option
    ensures dtmf in OptionsOf(node) ==> r.value == dtmf
    ensures dtmf !in OptionsOf(node) ==> r.value == FallbackAction
    // so indexing the options with any non-sentinel result cannot fail
    ensures r.value != FallbackAction ==> r.value in OptionsOf(node)
  {
    var prompt := node.prompt.GetOr(InvalidMenuPrompt);
    var options := OptionsOf(node);
    var trace := [Say(prompt), CollectDtmf(DtmfTimeout, DtmfDigits)];
    if dtmf in options then Outcome(dtmf, trace) else Outcome(FallbackAction, trace)
  }
}
