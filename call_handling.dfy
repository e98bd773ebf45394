/** The traversal loop (`WazoIVRPlugin.handle_incoming_call`): starting from an
    initial node, run menus and actions until an action ends the call or a node
    is missing. The loop has no iteration bound of its own; the model bounds
    it with fuel, and a run that uses up its fuel is still on a live node. */
module CallHandling {
  import opened Wrappers
  import opened Flow
  import opened Menu
  import opened Actions

  /** How a run stopped: the flow ended (an action returned "END", or the
      initial context was "END"), a node was absent or empty (after an apology),
      or the fuel ran out while the call was still at the given node. */
  datatype Status = Completed | NodeMissing(id: string) | OutOfFuel(id: string)

  /** All commands a run issued, and how it stopped. */
  datatype Session = Session(trace: seq<Command>, status: Status)

  /** The result of one iteration of the loop: stop here, or go on at `next`,
      having used one of the caller's digits or not. */
  datatype StepResult =
    | Stop(trace: seq<Command>, status: Status)
    | Continue(next: string, collected: bool, trace: seq<Command>)

  /** What `collect_dtmf` answers at the pos-th collection: the caller's
      pos-th entry, or "" once the caller enters nothing more. */
  function Collected(digits: seq<string>, pos: nat): (d: string)
    ensures pos < |digits| ==> d == digits[pos]
    ensures |digits| <= pos ==> d == ""
  {
    if pos < |digits| then digits[pos] else ""
  }

  /** One iteration of the loop at node `id`, given the digits the caller
      would enter if asked. */
  function Step(flows: Flows, id: string, dtmf: string, hour: Hour): (r: StepResult)
    // an iteration ends the call, stops at the node it could not run, or goes
    // on at a node other than "END"
    ensures r.Stop? ==> r.status == Completed || r.status == NodeMissing(id)
    ensures id != End && r.Continue? ==> r.next != End
    // a prompt and a collection, and at most three commands of the action
    ensures |r.trace| <= 5
  {
    if id !in flows || IsEmpty(flows[id]) then
      Stop([Say(ApologyPrompt)], NodeMissing(id))
    else
      var node := flows[id];
      if node.kind == Some(TimeBasedRouting) then
        // the node itself is the action; any result but "END" is the next id
        var o := ApplyAction(node.routing, hour);
        if o.value == End then Stop(o.trace, Completed) else Continue(o.value, false, o.trace)
      else
        var menu := HandleMenu(node, dtmf);
        var action := if menu.value == FallbackAction then FallbackOf(node) else OptionsOf(node)[menu.value];
        var o := ApplyAction(action, hour);
        var trace := menu.trace + o.trace;
        if o.value == End then Stop(trace, Completed)
        else if o.value == CurrentMenu then Continue(id, true, trace)
        else Continue(o.value, true, trace)
  }

  /** Prepends the commands of one step to the rest of a run. */
  function Then(trace: seq<Command>, rest: Session): Session {
    Session(trace + rest.trace, rest.status)
  }

  /** The loop's own control, whatever one iteration does: nothing at "END",
      stop when the fuel is used up, otherwise run `step` at the current node
      with what the caller would enter now, then stop or go on as it says. */
  function Drive(step: (string, string) -> StepResult, id: string, digits: seq<string>, pos: nat,
                 fuel: nat): (r: Session)
    // an initial "END" issues nothing and ends; no fuel issues nothing
    ensures id == End ==> r == Session([], Completed)
    ensures fuel == 0 ==> r.trace == []
    decreases fuel
  {
    if id == End then Session([], Completed)
    else if fuel == 0 then Session([], OutOfFuel(id))
    else
      match step(id, Collected(digits, pos))
      case Stop(trace, status) => Session(trace, status)
      case Continue(next, collected, trace) =>
        Then(trace, Drive(step, next, digits, if collected then pos + 1 else pos, fuel - 1))
  }

  /** The run from node `id` with the caller's digits from position `pos` on,
      for at most `fuel` iterations of the loop. */
  function Run(flows: Flows, id: string, digits: seq<string>, pos: nat, hour: Hour, fuel: nat): (r: Session)
    // the loop only runs out at a live node: never for fuel at "END"
    ensures r.status.OutOfFuel? ==> r.status.id != End
    // a run issues at most five commands per iteration
    ensures |r.trace| <= 5 * fuel
  {
    var step := (node, dtmf) => Step(flows, node, dtmf, hour);
    assert forall node, dtmf :: |step(node, dtmf).trace| <= 5 && (step(node, dtmf).Stop? ==> !step(node, dtmf).status.OutOfFuel?);
    TraceBound(step, 5, id, digits, pos, fuel);
    FuelRunsOutAtLiveNode(step, id, digits, pos, fuel);
    Drive(step, id, digits, pos, fuel)
  }

  /** When no iteration issues more than `k` commands, a run of at most
      `fuel` iterations issues at most `k * fuel`. */
  lemma {:induction false} TraceBound(step: (string, string) -> StepResult, k: nat, id: string,
                                      digits: seq<string>, pos: nat, fuel: nat)
    requires forall node, dtmf :: |step(node, dtmf).trace| <= k
    ensures |Drive(step, id, digits, pos, fuel).trace| <= k * fuel
    decreases fuel
  {
    if id != End && fuel > 0 {
      var r := step(id, Collected(digits, pos));
      if r.Continue? {
        TraceBound(step, k, r.next, digits, if r.collected then pos + 1 else pos, fuel - 1);
      }
    }
  }

  /** When no iteration itself stops for lack of fuel, a run that does so
      stopped at a node other than "END". */
  lemma {:induction false} FuelRunsOutAtLiveNode(step: (string, string) -> StepResult, id: string,
                                                 digits: seq<string>, pos: nat, fuel: nat)
    requires forall node, dtmf :: step(node, dtmf).Stop? ==> !step(node, dtmf).status.OutOfFuel?
    ensures var r := Drive(step, id, digits, pos, fuel); r.status.OutOfFuel? ==> r.status.id != End
    decreases fuel
  {
    if id != End && fuel > 0 {
      var r := step(id, Collected(digits, pos));
      if r.Continue? {
        FuelRunsOutAtLiveNode(step, r.next, digits, if r.collected then pos + 1 else pos, fuel - 1);
      }
    }
  }

  /** One iteration at a node whose type is time-based routing: no prompt and
      no digit collection; the node's own action is applied, and any result
      other than "END" (even "current_menu") is taken as the next node id. */
  lemma TimeRoutingIteration(flows: Flows, id: string, digits: seq<string>, pos: nat, hour: Hour, fuel: nat)
    requires id != End && fuel > 0
    requires id in flows && !IsEmpty(flows[id]) && flows[id].kind == Some(TimeBasedRouting)
    ensures var o := ApplyAction(flows[id].routing, hour);
      Run(flows, id, digits, pos, hour, fuel) ==
        if o.value == End then Session(o.trace, Completed)
        else Then(o.trace, Run(flows, o.value, digits, pos, hour, fuel - 1))
  {
  }

  /** One iteration at a menu node: the menu's prompt and collection, then the
      chosen option's action, or the fallback action on unmatched input. "END"
      stops, "current_menu" stays on the node, anything else is the next node. */
  lemma MenuIteration(flows: Flows, id: string, digits: seq<string>, pos: nat, hour: Hour, fuel: nat)
    requires id != End && fuel > 0
    requires id in flows && !IsEmpty(flows[id]) && flows[id].kind != Some(TimeBasedRouting)
    ensures var node := flows[id];
      var menu := HandleMenu(node, Collected(digits, pos));
      var o := ApplyAction(if menu.value == FallbackAction then FallbackOf(node) else OptionsOf(node)[menu.value], hour);
      Run(flows, id, digits, pos, hour, fuel) ==
        if o.value == End then Session(menu.trace + o.trace, Completed)
        else Then(menu.trace + o.trace,
                  Run(flows, if o.value == CurrentMenu then id else o.value, digits, pos + 1, hour, fuel - 1))
  {
  }

  /** The menu step on input that matches no option (or that is the sentinel
      itself): one prompt, one collection, then the node's fallback action
      (a repeat when the node has none). */
  lemma UnmatchedInputAppliesFallback(flows: Flows, id: string, dtmf: string, hour: Hour)
    requires id in flows && !IsEmpty(flows[id]) && flows[id].kind != Some(TimeBasedRouting)
    requires dtmf !in OptionsOf(flows[id]) || dtmf == FallbackAction
    ensures var node := flows[id];
      var o := ApplyAction(FallbackOf(node), hour);
      var t := [Say(node.prompt.GetOr(InvalidMenuPrompt)), CollectDtmf(DtmfTimeout, DtmfDigits)] + o.trace;
      Step(flows, id, dtmf, hour) ==
        if o.value == End then Stop(t, Completed)
        else Continue(if o.value == CurrentMenu then id else o.value, true, t)
  {
  }

  /** The menu step on input that names an option: that option's action. */
  lemma MatchedInputAppliesOption(flows: Flows, id: string, dtmf: string, hour: Hour)
    requires id in flows && !IsEmpty(flows[id]) && flows[id].kind != Some(TimeBasedRouting)
    requires dtmf in OptionsOf(flows[id]) && dtmf != FallbackAction
    ensures var node := flows[id];
      var o := ApplyAction(OptionsOf(node)[dtmf], hour);
      var t := [Say(node.prompt.GetOr(InvalidMenuPrompt)), CollectDtmf(DtmfTimeout, DtmfDigits)] + o.trace;
      Step(flows, id, dtmf, hour) ==
        if o.value == End then Stop(t, Completed)
        else Continue(if o.value == CurrentMenu then id else o.value, true, t)
  {
  }

  /** An initial context of "END" issues no command at all. */
  lemma EndContextIssuesNothing(flows: Flows, digits: seq<string>, hour: Hour, fuel: nat)
    ensures Run(flows, End, digits, 0, hour, fuel) == Session([], Completed)
  {
  }

  /** A node that is absent or empty: exactly one apology prompt, then the
      call handling stops. */
  lemma MissingNodeApologisesOnce(flows: Flows, id: string, digits: seq<string>, pos: nat, hour: Hour, fuel: nat)
    requires id != End && fuel > 0 && (id !in flows || IsEmpty(flows[id]))
    ensures Run(flows, id, digits, pos, hour, fuel) == Session([Say(ApologyPrompt)], NodeMissing(id))
  {
  }

  /** Fuel is only a bound: a run that stopped within `n` iterations does
      exactly the same with any larger budget. */
  lemma {:induction false} MoreFuelSameRun(step: (string, string) -> StepResult, id: string,
                                           digits: seq<string>, pos: nat, n: nat, m: nat)
    requires n <= m
    requires !Drive(step, id, digits, pos, n).status.OutOfFuel?
    ensures Drive(step, id, digits, pos, m) == Drive(step, id, digits, pos, n)
    decreases n
  {
    if id != End && n > 0 {
      var s := step(id, Collected(digits, pos));
      if s.Continue? {
        MoreFuelSameRun(step, s.next, digits, if s.collected then pos + 1 else pos, n - 1, m - 1);
      }
    }
  }

  /** With more fuel a run only goes further: the commands issued within `n`
      iterations are a prefix of those issued within any larger budget. */
  lemma {:induction false} RunExtendsWithFuel(step: (string, string) -> StepResult, id: string,
                                              digits: seq<string>, pos: nat, n: nat, m: nat)
    requires n <= m
    ensures Drive(step, id, digits, pos, n).trace <= Drive(step, id, digits, pos, m).trace
    decreases n
  {
    if id != End && n > 0 {
      var s := step(id, Collected(digits, pos));
      if s.Continue? {
        var p := if s.collected then pos + 1 else pos;
        RunExtendsWithFuel(step, s.next, digits, p, n - 1, m - 1);
        PrefixPrepend(s.trace, Drive(step, s.next, digits, p, n - 1).trace,
                      Drive(step, s.next, digits, p, m - 1).trace);
      }
    }
  }

  lemma PrefixPrepend<T>(t: seq<T>, a: seq<T>, b: seq<T>)
    requires a <= b
    ensures t + a <= t + b
  {
    assert (t + b)[..|t + a|] == t + a;
  }

  /** A bridge in one iteration's commands is its last command, and the
      iteration then stops the run normally. */
  predicate BridgesLast(r: StepResult) {
    match r
    case Stop(t, status) => forall i :: 0 <= i < |t| && t[i].Bridge? ==> i == |t| - 1 && status == Completed
    case Continue(_, _, t) => forall i :: 0 <= i < |t| ==> !t[i].Bridge?
  }

  /** Within one iteration of the interpreter, a bridge is the last command
      and ends the call. */
  lemma StepBridgesLast(flows: Flows, id: string, dtmf: string, hour: Hour)
    ensures BridgesLast(Step(flows, id, dtmf, hour))
  {
    if id in flows && !IsEmpty(flows[id]) {
      var node := flows[id];
      if node.kind == Some(TimeBasedRouting) {
        CommandDiscipline(node.routing, hour);
      } else {
        var menu := HandleMenu(node, dtmf);
        CommandDiscipline(if menu.value == FallbackAction then FallbackOf(node) else OptionsOf(node)[menu.value], hour);
      }
    }
  }

  /** When every iteration bridges only as its last command and then stops,
      so does the whole run. */
  lemma {:induction false} BridgeIsLast(step: (string, string) -> StepResult, id: string,
                                        digits: seq<string>, pos: nat, fuel: nat, i: nat)
    requires forall node, dtmf :: BridgesLast(step(node, dtmf))
    requires var s := Drive(step, id, digits, pos, fuel); i < |s.trace| && s.trace[i].Bridge?
    ensures var s := Drive(step, id, digits, pos, fuel); i == |s.trace| - 1 && s.status == Completed
    decreases fuel
  {
    var s := Drive(step, id, digits, pos, fuel);
    assert id != End && fuel > 0;
    var r := step(id, Collected(digits, pos));
    assert BridgesLast(r);
    if r.Continue? {
      var p := if r.collected then pos + 1 else pos;
      var rest := Drive(step, r.next, digits, p, fuel - 1);
      assert s == Then(r.trace, rest);
      // the iteration itself bridged nothing, so the bridge is in the rest of the run
      assert i >= |r.trace|;
      assert rest.trace[i - |r.trace|] == s.trace[i];
      BridgeIsLast(step, r.next, digits, p, fuel - 1, i - |r.trace|);
    }
  }

  /** Once the call is bridged nothing more is issued: a bridge can only be
      the last command of a run, and that run ended normally. */
  lemma BridgeEndsCall(flows: Flows, id: string, digits: seq<string>, pos: nat,
                       hour: Hour, fuel: nat, i: nat)
    requires var s := Run(flows, id, digits, pos, hour, fuel); i < |s.trace| && s.trace[i].Bridge?
    ensures var s := Run(flows, id, digits, pos, hour, fuel); i == |s.trace| - 1 && s.status == Completed
  {
    var step := (node, dtmf) => Step(flows, node, dtmf, hour);
    forall node, dtmf ensures BridgesLast(step(node, dtmf)) {
      StepBridgesLast(flows, node, dtmf, hour);
    }
    BridgeIsLast(step, id, digits, pos, fuel, i);
  }

  /** `block` repeated `n` times. */
  function Repeated(block: seq<Command>, n: nat): seq<Command> {
    if n == 0 then [] else block + Repeated(block, n - 1)
  }

  /** No loop bound: at a menu whose fallback stays on the menu, a caller who
      never enters a matching option hears the prompt (and the fallback's
      commands) again at every iteration, and the call never ends. */
  lemma {:induction false} UnmatchedInputLoopsForever(flows: Flows, id: string, digits: seq<string>,
                                                      pos: nat, hour: Hour, fuel: nat)
    requires id != End && id in flows && !IsEmpty(flows[id]) && flows[id].kind != Some(TimeBasedRouting)
    requires forall k: nat :: pos <= k ==> Collected(digits, k) !in OptionsOf(flows[id])
    requires ApplyAction(FallbackOf(flows[id]), hour).value == CurrentMenu
    ensures var node := flows[id];
      var round := [Say(node.prompt.GetOr(InvalidMenuPrompt)), CollectDtmf(DtmfTimeout, DtmfDigits)]
                   + ApplyAction(FallbackOf(node), hour).trace;
      Run(flows, id, digits, pos, hour, fuel) == Session(Repeated(round, fuel), OutOfFuel(id))
    decreases fuel
  {
    if fuel > 0 {
      UnmatchedInputAppliesFallback(flows, id, Collected(digits, pos), hour);
      UnmatchedInputLoopsForever(flows, id, digits, pos + 1, hour, fuel - 1);
    }
  }

  lemma ThenThen(first: seq<Command>, second: seq<Command>, rest: Session)
    ensures Then(first, Then(second, rest)) == Then(first + second, rest)
  {
    assert first + (second + rest.trace) == (first + second) + rest.trace;
  }

  /** The plugin object: the flow definition it loaded when created. The
      telephony, configuration, directory and speech clients are the commands
      of the trace. */
  class WazoIvrPlugin {
    const flows: Flows

    constructor (config: ConfigFile)
      ensures flows == LoadIvrFlows(config)
    {
      flows := LoadIvrFlows(config);
    }

    /** Handles one call from `initialContext` (the source's default is
        "main_menu"): `digits` are what the caller enters at each digit
        collection, `hour` the clock, `fuel` the number of iterations the
        model runs. Each iteration is `Step` at the current node. */
    method HandleIncomingCall(initialContext: string, digits: seq<string>, hour: Hour, fuel: nat)
      returns (trace: seq<Command>, status: Status)
      ensures Session(trace, status) == Run(flows, initialContext, digits, 0, hour, fuel)
    {
      var currentMenuId := initialContext;
      var pos: nat := 0;
      var left: nat := fuel;
      trace := [];
      ghost var whole := Run(flows, initialContext, digits, 0, hour, fuel);
      while currentMenuId != End
        invariant whole == Then(trace, Run(flows, currentMenuId, digits, pos, hour, left))
        decreases left
      {
        if left == 0 {
          status := OutOfFuel(currentMenuId);
          return;
        }
        match Step(flows, currentMenuId, Collected(digits, pos), hour)
        case Stop(t, st) =>
          // a missing or empty node, or an action that returned "END"
          trace := trace + t;
          status := st;
          return;
        case Continue(next, collected, t) =>
          var nextPos: nat := if collected then pos + 1 else pos;
          ThenThen(trace, t, Run(flows, next, digits, nextPos, hour, left - 1));
          trace := trace + t;
          currentMenuId, pos, left := next, nextPos, left - 1;
      }
      status := Completed;
    }
  }
}
