/** The usual Some/None datatype: a key of a flow-definition dictionary that is
    present carries Some(value); a key that is absent reads as None. */
module Wrappers {

  datatype Option<+T> = None | Some(value: T) {

    /** The value if present, otherwise `default` (Python's `dict.get(key, default)`). */
    function GetOr(default: T): (r: T)
      ensures Some? ==> r == value
      ensures None? ==> r == default
    {
      match this
      case Some(v) => v
      case None => default
    }
  }
}

/** The flow definition (a dictionary of menu nodes), the telephony commands the
    engine issues, and the constants the engine reads and writes. */
module Flow {
  import opened Wrappers

  // Reserved results of an action and of a menu step.
  const End := "END"
  const CurrentMenu := "current_menu"
  const FallbackAction := "FALLBACK_ACTION"

  // Node identifiers the engine names itself.
  const MainMenu := "main_menu"
  const VoicemailMenu := "voicemail_menu"

  // Action names the interpreter recognises, and the node type that skips the menu.
  const RouteToQueue := "route_to_queue"
  const TransferToExtension := "transfer_to_extension"
  const LanguageSelection := "language_selection"
  const CallRecordingTrigger := "call_recording_trigger"
  const RepeatMenu := "repeat_menu"
  const PlayAnnouncement := "play_announcement"
  const TimeBasedRouting := "time_based_routing"
  const Exit := "exit"

  // Fixed prompts.
  const InvalidMenuPrompt := "Invalid menu configuration."
  const RecordingStartedPrompt := "Call recording has started."
  const RecordingStoppedPrompt := "Call recording has stopped."
  const GoodbyePrompt := "Thank you for calling. Goodbye."
  const ApologyPrompt := "We apologize, an error occurred. Goodbye."

  // Digit collection of a menu: one digit, five seconds.
  const DtmfTimeout: nat := 5
  const DtmfDigits: nat := 1

  // Business hours: from 09:00 included to 17:00 excluded.
  const OpeningHour := 9
  const ClosingHour := 17

  /** The hour of the local clock, as `datetime.now().hour` gives it. */
  type Hour = h: int | 0 <= h < 24

  /** One request issued on the call being handled, in the order issued.
      `Play` stands for rendering the text with the text-to-speech backend and
      playing the result; its text, like the payload of the other requests,
      is None where the source passes Python's None. */
  datatype Command =
    | Play(text: Option<string>)
    | CollectDtmf(timeout: nat, digits: nat)
    | Bridge(destination: Option<string>)
    | RecordCall(start: bool)
    | GetQueueAgents(queue: Option<string>)
    | GetUserDetails(user: Option<string>)

  /** A prompt with fixed text. */
  function Say(text: string): (c: Command)
    ensures c.Play? && c.text == Some(text)
  {
    Play(Some(text))
  }

  /** Python's `str()` of a value that is a string or None, as an f-string shows it. */
  function PyStr(v: Option<string>): (s: string)
    ensures v.Some? ==> s == v.value
    ensures v.None? ==> s == "None"
  {
    match v
    case Some(text) => text
    case None => "None"
  }

  /** An action dictionary: the keys `action`, `target`, `business_hours_target`
      and `after_hours_target`, each present or absent. */
  datatype Action = Action(
    action: Option<string>,
    target: Option<string>,
    businessHoursTarget: Option<string>,
    afterHoursTarget: Option<string>)

  const NoAction := Action(None, None, None, None)

  /** The action `{"action": name}` with an optional `target`. */
  function Act(name: string, target: Option<string>): (a: Action)
    ensures a.action == Some(name) && a.target == target
    ensures a.businessHoursTarget.None? && a.afterHoursTarget.None?
  {
    Action(Some(name), target, None, None)
  }

  /** A node dictionary. `routing` holds the node's own action keys, which the
      engine reads when the node's `type` is `time_based_routing`; `otherKeys`
      names the keys present that the engine never reads (they only make the
      dictionary non-empty), so it holds none of the eight keys modelled by
      the other fields: "prompt", "options", "fallback", "type", "action",
      "target", "business_hours_target" and "after_hours_target". */
  datatype Node = Node(
    prompt: Option<string>,
    options: Option<map<string, Action>>,
    fallback: Option<Action>,
    kind: Option<string>,
    routing: Action,
    otherKeys: set<string>)

  /** `not menu_node`: the node dictionary has no key at all. */
  predicate IsEmpty(node: Node): (b: bool)
    // the empty dictionary is the one node value with no key
    ensures b <==> node == Node(None, None, None, None, NoAction, {})
    // so it has no options and the default fallback
    ensures b ==> OptionsOf(node) == map[] && FallbackOf(node) == Act(RepeatMenu, None)
  {
    && node.prompt.None?
    && node.options.None?
    && node.fallback.None?
    && node.kind.None?
    && node.routing == NoAction
    && node.otherKeys == {}
  }

  /** `menu_node.get("options", {})`. */
  function OptionsOf(node: Node): (options: map<string, Action>)
    ensures node.options.None? ==> options == map[]
    ensures node.options.Some? ==> options == node.options.value
  {
    node.options.GetOr(map[])
  }

  /** `menu_node.get("fallback", {"action": "repeat_menu"})`. */
  function FallbackOf(node: Node): (fallback: Action)
    ensures node.fallback.None? ==> fallback.action == Some(RepeatMenu)
    ensures node.fallback.Some? ==> fallback == node.fallback.value
  {
    node.fallback.GetOr(Act(RepeatMenu, None))
  }

  /** A flow definition: node identifier to node. */
  type Flows = map<string, Node>

  const WelcomePrompt := "Welcome to our service. Press 1 for sales, 2 for support, or 9 to repeat."
  const SalesQueue := "sales_queue"
  const SupportQueue := "support_queue"

  /** The built-in flow used when the configuration file does not exist: one
      menu routing 1 to the sales queue, 2 to the support queue, 9 and any
      other input to a repeat, and two queue nodes that the menu never reaches
      (route_to_queue ends the call) and whose action the interpreter does not
      know ("transfer_to_queue"). */
  function DefaultFlows(): (flows: Flows)
    ensures flows.Keys == {MainMenu, SalesQueue, SupportQueue}
    ensures OptionsOf(flows[MainMenu]).Keys == {"1", "2", "9"}
    ensures OptionsOf(flows[MainMenu])["1"] == Act(RouteToQueue, Some(SalesQueue))
    ensures OptionsOf(flows[MainMenu])["2"] == Act(RouteToQueue, Some(SupportQueue))
    ensures OptionsOf(flows[MainMenu])["9"].action == Some(RepeatMenu)
    ensures FallbackOf(flows[MainMenu]).action == Some(RepeatMenu)
    ensures forall id :: id in flows ==> !IsEmpty(flows[id]) && flows[id].kind.None?
  {
    map[
      MainMenu := Node(
        Some(WelcomePrompt),
        Some(map[
          "1" := Act(RouteToQueue, Some(SalesQueue)),
          "2" := Act(RouteToQueue, Some(SupportQueue)),
          "9" := Act(RepeatMenu, None)]),
        Some(Act(RepeatMenu, None)),
        None, NoAction, {}),
      SalesQueue := Node(
        Some("Please wait while we connect you to sales."),
        None, None, None,
        Act("transfer_to_queue", Some("sales_queue_id_from_confd")), {}),
      SupportQueue := Node(
        Some("Please wait while we connect you to support."),
        None, None, None,
        Act("transfer_to_queue", Some("support_queue_id_from_confd")), {})
    ]
  }

  /** What became of the configuration file: it does not exist, it could not be
      opened or decoded, or it decoded to a flow definition. */
  datatype ConfigFile = Missing | Unreadable | Decoded(flows: Flows)

  /** `load_ivr_flows`: the default flow for a missing file, an empty flow
      definition for a file that cannot be read, the decoded flows otherwise. */
  function LoadIvrFlows(file: ConfigFile): (flows: Flows)
    ensures file.Missing? ==> flows == DefaultFlows() && MainMenu in flows
    ensures file.Unreadable? ==> flows == map[]
    ensures file.Decoded? ==> flows == file.flows
  {
    match file
    case Missing => DefaultFlows()
    case Unreadable => map[]
    case Decoded(flows) => flows
  }
}
