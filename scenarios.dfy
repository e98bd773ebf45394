/** Whole calls through concrete flow definitions: the built-in default flow,
    a configuration that cannot be read, recording control, and the way a
    time-routing node is read. */
module Scenarios {
  import opened Wrappers
  import opened Flow
  import opened Menu
  import opened Actions
  import opened CallHandling

  /** With the default flow, a call from the main menu never reaches another
      node: it either still repeats the main menu or has ended bridged to the
      sales queue or the support queue. */
  lemma {:induction false} DefaultFlowEndsInAQueue(digits: seq<string>, pos: nat, hour: Hour, fuel: nat)
    ensures var s := Run(DefaultFlows(), MainMenu, digits, pos, hour, fuel);
      || s.status == OutOfFuel(MainMenu)
      || (&& s.status == Completed
          && |s.trace| > 0
          && s.trace[|s.trace| - 1] in {Bridge(Some(SalesQueue)), Bridge(Some(SupportQueue))})
    decreases fuel
  {
    if fuel > 0 {
      var flows := DefaultFlows();
      var d := Collected(digits, pos);
      if d == "1" || d == "2" {
        MatchedInputAppliesOption(flows, MainMenu, d, hour);
      } else {
        UnmatchedOrRepeat(d, hour);
        DefaultFlowEndsInAQueue(digits, pos + 1, hour, fuel - 1);
      }
    }
  }

  /** At the default main menu, any input but 1 and 2 repeats the menu. */
  lemma UnmatchedOrRepeat(d: string, hour: Hour)
    requires d != "1" && d != "2"
    ensures Step(DefaultFlows(), MainMenu, d, hour)
         == Continue(MainMenu, true, [Say(WelcomePrompt), CollectDtmf(DtmfTimeout, DtmfDigits)])
  {
    var flows := DefaultFlows();
    if d == "9" {
      MatchedInputAppliesOption(flows, MainMenu, d, hour);
    } else {
      UnmatchedInputAppliesFallback(flows, MainMenu, d, hour);
    }
  }

  /** Without a configuration file, a caller who presses 9 and then 1 hears
      the welcome menu twice and is bridged once, to the sales queue. */
  lemma MissingConfigRepeatThenSales(hour: Hour, fuel: nat)
    requires fuel >= 2
    ensures Run(LoadIvrFlows(Missing), MainMenu, ["9", "1"], 0, hour, fuel) == Session(
      [Say(WelcomePrompt), CollectDtmf(DtmfTimeout, DtmfDigits),
       Say(WelcomePrompt), CollectDtmf(DtmfTimeout, DtmfDigits),
       GetQueueAgents(Some("sales_queue")), Say("Connecting you to sales_queue."), Bridge(Some("sales_queue"))],
      Completed)
  {
    var flows := LoadIvrFlows(Missing);
    var digits := ["9", "1"];
    assert Collected(digits, 0) == "9" && Collected(digits, 1) == "1";
    UnmatchedOrRepeat("9", hour);
    MatchedInputAppliesOption(flows, MainMenu, "1", hour);
    assert ConnectingPrompt(Some("sales_queue")) == "Connecting you to sales_queue.";
    TransfersBridgeTheTarget(OptionsOf(flows[MainMenu])["1"], hour);
    var bridged := [GetQueueAgents(Some("sales_queue")), Say("Connecting you to sales_queue."), Bridge(Some("sales_queue"))];
    assert Run(flows, MainMenu, digits, 1, hour, fuel - 1) == Session([Say(WelcomePrompt), CollectDtmf(DtmfTimeout, DtmfDigits)] + bridged, Completed);
    assert Run(flows, MainMenu, digits, 0, hour, fuel)
        == Then([Say(WelcomePrompt), CollectDtmf(DtmfTimeout, DtmfDigits)], Run(flows, MainMenu, digits, 1, hour, fuel - 1));
  }

  /** The same call through the plugin object: created without a
      configuration file, it answers 9 then 1 by bridging to the sales queue. */
  method CallWithoutConfig(hour: Hour) returns (trace: seq<Command>, status: Status)
    ensures status == Completed
    ensures trace == [Say(WelcomePrompt), CollectDtmf(DtmfTimeout, DtmfDigits),
                      Say(WelcomePrompt), CollectDtmf(DtmfTimeout, DtmfDigits),
                      GetQueueAgents(Some("sales_queue")), Say("Connecting you to sales_queue."),
                      Bridge(Some("sales_queue"))]
  {
    var plugin := new WazoIvrPlugin(Missing);
    MissingConfigRepeatThenSales(hour, 2);
    trace, status := plugin.HandleIncomingCall(MainMenu, ["9", "1"], hour, 2);
  }

  /** The default flow's queue nodes have no options and only an action the
      interpreter never reads there: a call sent to one repeats its prompt
      for ever. */
  lemma DefaultQueueNodeOnlyRepeats(digits: seq<string>, pos: nat, hour: Hour, fuel: nat)
    ensures Run(DefaultFlows(), SalesQueue, digits, pos, hour, fuel) == Session(
      Repeated([Say("Please wait while we connect you to sales."), CollectDtmf(DtmfTimeout, DtmfDigits)], fuel),
      OutOfFuel(SalesQueue))
  {
    var flows := DefaultFlows();
    assert ApplyAction(FallbackOf(flows[SalesQueue]), hour) == Outcome(CurrentMenu, []);
    UnmatchedInputLoopsForever(flows, SalesQueue, digits, pos, hour, fuel);
    assert [Say("Please wait while we connect you to sales."), CollectDtmf(DtmfTimeout, DtmfDigits)] + [] ==
      [Say("Please wait while we connect you to sales."), CollectDtmf(DtmfTimeout, DtmfDigits)];
  }

  /** A configuration file that cannot be read leaves no node: every call
      gets the apology and nothing else. */
  lemma UnreadableConfigApologises(id: string, digits: seq<string>, hour: Hour, fuel: nat)
    requires id != End && fuel > 0
    ensures Run(LoadIvrFlows(Unreadable), id, digits, 0, hour, fuel)
         == Session([Say(ApologyPrompt)], NodeMissing(id))
  {
    MissingNodeApologisesOnce(LoadIvrFlows(Unreadable), id, digits, 0, hour, fuel);
  }

  /** A menu with recording on 5 and a repeat on 9. */
  function RecordingMenu(): Flows {
    map[MainMenu := Node(
      Some("Press 5 to record, 9 to repeat."),
      Some(map["5" := Act(CallRecordingTrigger, Some("start")), "9" := Act(RepeatMenu, None)]),
      None, None, NoAction, {})]
  }

  /** Starting the recording and then pressing 9: recording is switched on
      once, with its confirmation, the menu is played again, and the call is
      still on the menu. */
  lemma RecordingThenRepeat(hour: Hour)
    ensures Run(RecordingMenu(), MainMenu, ["5", "9"], 0, hour, 2) == Session(
      [Say("Press 5 to record, 9 to repeat."), CollectDtmf(DtmfTimeout, DtmfDigits),
       RecordCall(true), Say(RecordingStartedPrompt),
       Say("Press 5 to record, 9 to repeat."), CollectDtmf(DtmfTimeout, DtmfDigits)],
      OutOfFuel(MainMenu))
  {
    var flows := RecordingMenu();
    MatchedInputAppliesOption(flows, MainMenu, "5", hour);
    MatchedInputAppliesOption(flows, MainMenu, "9", hour);
  }

  /** A node of type time_based_routing is interpreted by its own `action`
      key: without `"action": "time_based_routing"` it falls to the unknown
      branch and restarts at the main menu, whatever its targets. */
  lemma TimeNodeWithoutActionRestarts(business: string, afterHours: string, hour: Hour)
    ensures var router := Node(None, None, None, Some(TimeBasedRouting),
                               Action(None, None, Some(business), Some(afterHours)), {});
      Step(map["router" := router], "router", "", hour) == Continue(MainMenu, false, [])
  {
  }

  /** On the time-routing path "current_menu" is not a token: it becomes the
      next node id, and a flow without such a node then ends in the apology. */
  lemma TimeNodeCurrentMenuIsANodeId(hour: Hour)
    requires 9 <= hour < 17
    ensures var router := Node(None, None, None, Some(TimeBasedRouting),
                               Action(Some(TimeBasedRouting), None, Some(CurrentMenu), None), {});
      Run(map["router" := router], "router", [], 0, hour, 2)
        == Session([Say(ApologyPrompt)], NodeMissing(CurrentMenu))
  {
  }
}
