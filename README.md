# IVR flow-execution core of the Wazo IVR plugin, in Dafny

This project models the call-flow engine of the Wazo IVR plugin (`WazoIVRPlugin` in
`plugins/plugin-template/helpers.py`). The engine drives one telephone call through a flow
definition: a dictionary of menu nodes. At each menu node it plays the prompt, collects one DTMF
digit, and applies the matching option's action or the node's fallback. Nodes whose `type` is
`time_based_routing` are routed by the clock without a menu. Actions are interpreted by name.
They bridge the call to a queue or an extension, switch recording, play announcements, repeat the
menu, restart at the main menu, or say goodbye. The loop runs until an action returns `"END"` or
a node is missing.

The model makes the engine's inputs explicit:

- the digits the caller enters, one entry per digit collection (`""` once the caller enters
  nothing more, which is what a timeout returns);
- the hour of the clock;
- what became of the configuration file (`Missing`, `Unreadable` or `Decoded(flows)`).

Its output is the exact sequence of commands sent to the telephony, configuration, directory and
speech services (`Command`). It also gives how the run stopped (`Status`).

Files and modules:

- `flow.dfy`: module `Wrappers` (`Option`) and module `Flow`. `Flow` holds the node and action
  dictionaries as records of optional keys, the commands, the constants, the built-in default
  flow and `load_ivr_flows`.
- `menu.dfy`: module `Menu`, which models `_handle_menu` as a pure function returning the chosen
  key and the commands issued.
- `actions.dfy`: module `Actions`, which models `_apply_action` as a pure function returning the
  next node id (or `"current_menu"`/`"END"`) and the commands issued, with lemmas per action.
- `call_handling.dfy`: module `CallHandling`. It holds one iteration of the loop body (`Step`:
  the missing-node check, the time-routing branch and the menu branch). It also holds the loop's
  own control for any iteration (`Drive`, bounded by fuel) and a whole run (`Run`, which is
  `Drive` with `Step`). The class `WazoIvrPlugin` has `HandleIncomingCall`, the source's `while`
  loop, written imperatively over `Step` and proved equal to `Run`. The module also has lemmas
  about runs.
- `scenarios.dfy`: module `Scenarios`, with whole calls through concrete flows.

Python values that may be `None` are `Option`s. An absent dictionary key reads as `None`, and a
target that is `None` is passed on as `None` to the bridge, the lookups and the announcement. An
f-string shows it as `"None"` (`Flow.PyStr`).

## Model

| member | source | states |
|---|---|---|
| `Flow.DefaultFlows` | plugins/plugin-template/helpers.py:11-31 | The built-in flow has exactly the nodes main_menu, sales_queue and support_queue. Its main menu's options are exactly 1, 2 and 9: 1 routes to sales_queue, 2 to support_queue, 9 repeats. The fallback repeats. No node is empty or time-routed. |
| `Flow.LoadIvrFlows` | plugins/plugin-template/helpers.py:3-42 | A missing file gives the default flow, which has a main_menu. A file that cannot be read or decoded gives an empty flow definition. A decoded file gives its own flows. |
| `Flow.IsEmpty` | plugins/plugin-template/helpers.py:161 | A node counts as missing exactly when it is the empty dictionary. Such a node has no options and the default fallback. |
| `Flow.OptionsOf` | plugins/plugin-template/helpers.py:79 | A node without `options` has no options. Otherwise its options are the ones given. |
| `Flow.FallbackOf` | plugins/plugin-template/helpers.py:80 | A node without `fallback` falls back to `repeat_menu`. Otherwise it falls back to its own fallback. |
| `Menu.HandleMenu` | plugins/plugin-template/helpers.py:73-91 | A menu step issues exactly one prompt (default "Invalid menu configuration.") and then one one-digit collection with a 5-second timeout. The collected digits are returned exactly when they are an option key; otherwise the result is "FALLBACK_ACTION". Any result other than the sentinel is an option key, so the option lookup cannot fail. |
| `Actions.TimeTarget` | plugins/plugin-template/helpers.py:139-142 | At hours 9 to 16 the clock picks business_hours_target (default "main_menu"). At any other hour it picks after_hours_target (default "voicemail_menu"). |
| `Actions.ConnectingPrompt` | plugins/plugin-template/helpers.py:106 | The queue announcement is "Connecting you to <queue>.". A missing queue reads "None". |
| `Actions.TransferringPrompt` | plugins/plugin-template/helpers.py:112 | The extension announcement is "Transferring you to extension <extension>.". A missing extension reads "None". |
| `Actions.BranchOf` | plugins/plugin-template/helpers.py:98-148 | The chain of comparisons on the action name falls to its last, unknown-action branch exactly when the name is absent or none of the eight known names. |
| `Actions.ApplyAction` | plugins/plugin-template/helpers.py:93-148 | An action issues at most three commands. An action name that is absent or unknown gives "main_menu" and issues nothing. |
| `Actions.CommandDiscipline` | plugins/plugin-template/helpers.py:102-135 | No action collects digits. A bridge goes to exactly the action's target, is its last command, and comes only from an action that returns "END". A recording switch comes only from call_recording_trigger, which then returns "current_menu". The switch is on for target "start" and off for "stop". |
| `Actions.EndExactly` | plugins/plugin-template/helpers.py:102-148 | An action returns "END" exactly for route_to_queue, transfer_to_extension and exit, or for time_based_routing whose chosen target is "END". |
| `Actions.TransfersBridgeTheTarget` | plugins/plugin-template/helpers.py:102-114 | route_to_queue issues, in order, a queue-agents lookup, "Connecting you to <target>." and a bridge to exactly the target. transfer_to_extension issues a user-details lookup, "Transferring you to extension <target>." and a bridge. Both return "END". |
| `Actions.TimeBasedRoutingWindow` | plugins/plugin-template/helpers.py:136-142 | time_based_routing issues nothing. It returns business_hours_target (default "main_menu") exactly when 9 <= hour < 17, and after_hours_target (default "voicemail_menu") otherwise. |
| `Actions.BusinessHoursBoundaries` | plugins/plugin-template/helpers.py:139-142 | Hours 9, 10 and 16 route to the business target. Hours 8, 17 and 20 route to the after-hours target. |
| `Actions.StayOnCurrentMenuActions` | plugins/plugin-template/helpers.py:122-135 | repeat_menu returns "current_menu" and issues nothing. play_announcement plays its target and returns "current_menu". call_recording_trigger always returns "current_menu". It records on with a confirmation for "start", off with a confirmation for "stop", and issues nothing for any other target. |
| `Actions.CurrentMenuExactly` | plugins/plugin-template/helpers.py:122-142 | An action returns "current_menu" exactly for the recording trigger, repeat_menu and play_announcement, or for time_based_routing whose chosen target is literally "current_menu". |
| `Actions.MainMenuAndExitActions` | plugins/plugin-template/helpers.py:115-148 | language_selection stores nothing, issues nothing and returns "main_menu", as an absent action name does. exit plays the goodbye prompt and returns "END". |
| `CallHandling.Collected` | plugins/plugin-template/helpers.py:83 | The answer of the pos-th digit collection is the caller's pos-th entry. Once the caller enters nothing more, it is "". |
| `CallHandling.Step` | plugins/plugin-template/helpers.py:159-192 | One pass of the loop body either ends the call (Completed), stops at the node it could not run (NodeMissing), or goes on at a node other than "END". It issues at most five commands: a prompt, a collection and at most three from the action. |
| `CallHandling.Drive` | plugins/plugin-template/helpers.py:156-158 | The loop's own control, for any loop body: an initial "END" issues nothing and completes, and with no iterations left nothing is issued. |
| `CallHandling.Run` | plugins/plugin-template/helpers.py:156-192 | The loop with its body. A run stopped for lack of fuel is at a node other than "END", as the loop condition requires. A run of n iterations issues at most 5n commands. |
| `CallHandling.TraceBound` | plugins/plugin-template/helpers.py:158-192 | For any loop body that issues at most k commands per pass, a run of n passes issues at most k * n. |
| `CallHandling.FuelRunsOutAtLiveNode` | plugins/plugin-template/helpers.py:158 | For any loop body that never stops for fuel itself, a run that stops for fuel is at a node other than "END". |
| `CallHandling.TimeRoutingIteration` | plugins/plugin-template/helpers.py:166-172 | At a node of type time_based_routing there is no prompt and no collection, and no digit is used. The node itself is applied as an action. "END" stops the run, and any other result, even "current_menu", is the next node id. |
| `CallHandling.MenuIteration` | plugins/plugin-template/helpers.py:174-192 | At a menu node, the menu's commands come first, then those of the chosen option's action, or of the fallback on the sentinel. "END" stops the run, "current_menu" keeps the node, and any other result is the next node id. One digit is used. |
| `CallHandling.UnmatchedInputAppliesFallback` | plugins/plugin-template/helpers.py:175-180 | Input that matches no option applies the node's fallback (a repeat when there is none). So does input that is itself "FALLBACK_ACTION", even when that is an option key. |
| `CallHandling.MatchedInputAppliesOption` | plugins/plugin-template/helpers.py:181-184 | Input that names an option, other than the sentinel, applies that option's action. |
| `CallHandling.EndContextIssuesNothing` | plugins/plugin-template/helpers.py:156-158 | An initial context of "END" issues no command and ends. |
| `CallHandling.MissingNodeApologisesOnce` | plugins/plugin-template/helpers.py:159-164 | An absent or empty node produces exactly one apology prompt, and then the call handling stops. |
| `CallHandling.MoreFuelSameRun` | plugins/plugin-template/helpers.py:158-192 | Whatever one iteration does (so also for `Run`), a run that stopped within n iterations is the same with any larger bound. The bound only cuts a run short; it never changes what is issued. |
| `CallHandling.RunExtendsWithFuel` | plugins/plugin-template/helpers.py:158-192 | Whatever one iteration does (so also for `Run`), the commands issued within n iterations are a prefix of those issued within any larger bound. |
| `CallHandling.StepBridgesLast` | plugins/plugin-template/helpers.py:166-192 | Within one iteration, a bridge is the last command, and the iteration then ends the call. |
| `CallHandling.BridgeIsLast` | plugins/plugin-template/helpers.py:158-192 | If every iteration issues a bridge only as its last command and then stops normally, a bridge in a whole run is its last command and the run ended normally. |
| `CallHandling.BridgeEndsCall` | plugins/plugin-template/helpers.py:158-192 | In any run, a bridge can only be the last command, and that run ended normally. Nothing is issued after a transfer. |
| `CallHandling.UnmatchedInputLoopsForever` | plugins/plugin-template/helpers.py:158-192 | Take a menu whose fallback stays on the menu, and a caller who never enters an option. The prompt, the collection and the fallback's commands repeat at every iteration, and the call never ends. The loop has no bound. |
| `CallHandling.WazoIvrPlugin.constructor` | plugins/plugin-template/helpers.py:51-59 | The plugin's flows are what `load_ivr_flows` gives for the configuration file. |
| `CallHandling.WazoIvrPlugin.HandleIncomingCall` | plugins/plugin-template/helpers.py:150-194 | The imperative loop, which carries the current node, the digits used and the commands issued so far, issues exactly the commands of `Run` from the initial context and stops the same way. |
| `Scenarios.DefaultFlowEndsInAQueue` | plugins/plugin-template/helpers.py:11-31 | With the default flow, a call from main_menu is either still repeating main_menu, or ended with its last command a bridge to sales_queue or to support_queue. |
| `Scenarios.UnmatchedOrRepeat` | plugins/plugin-template/helpers.py:12-20 | At the default main menu, any input other than 1 and 2 plays the welcome prompt, collects, and stays on main_menu. |
| `Scenarios.MissingConfigRepeatThenSales` | plugins/plugin-template/helpers.py:8-31 | With no configuration file, pressing 9 then 1 plays the welcome menu twice, looks up sales_queue, announces it, bridges to it once, and ends. |
| `Scenarios.CallWithoutConfig` | plugins/plugin-template/helpers.py:51-59 | A plugin object created without a configuration file issues exactly that command sequence for 9 then 1, and completes. |
| `Scenarios.DefaultQueueNodeOnlyRepeats` | plugins/plugin-template/helpers.py:21-25 | A call sent to the default sales_queue node only repeats that node's prompt. The node has no options, and its "transfer_to_queue" action is never read at a menu node. |
| `Scenarios.UnreadableConfigApologises` | plugins/plugin-template/helpers.py:32-42 | With an unreadable configuration, every call that starts at a node id other than "END" gets the apology and nothing else. |
| `Scenarios.RecordingThenRepeat` | plugins/plugin-template/helpers.py:122-132 | Pressing the recording-start option and then 9 switches recording on once, with its confirmation, and plays the menu again. The call is still active on the menu. |
| `Scenarios.TimeNodeWithoutActionRestarts` | plugins/plugin-template/helpers.py:167-168 | Take a time_based_routing node without "action": "time_based_routing". It goes to main_menu whatever its targets, with no command. |
| `Scenarios.TimeNodeCurrentMenuIsANodeId` | plugins/plugin-template/helpers.py:168-171 | Take a time-routing node whose chosen target is "current_menu". That target becomes the next node id, and a flow without such a node ends in the apology. |

## Behaviour of the code

- Loading validates nothing. A file that cannot be read or decoded gives an empty flow definition.
  Only a missing file gives the default flow.
- The loop counts no iterations and has no limit. A flow that never reaches an ending action loops
  for ever (`UnmatchedInputLoopsForever`).
- `language_selection` stores no language. It only returns "main_menu".
- A time-routing node is recognised by its `type` but interpreted by its own `action` key. On that
  path "current_menu" is not a token but a node id.
- Every digit collection waits 5 seconds for one digit. Both values are written into the call.
- `transfer_to_extension` looks up the target with the directory's user-details request.
- The default flow has two queue nodes besides the main menu. The main menu's options route to the
  queues by action and never go to those nodes.

## Left out

- File access and JSON decoding in `load_ivr_flows` are I/O. The model takes their outcome
  (`ConfigFile`) as input.
- JSON values that are `null`, not strings or not dictionaries are not modelled. A key is either
  absent or holds a string (or a dictionary of actions, for `options`).
- `setup_wazo_plugin` is deployment plumbing: it creates directories and writes files.
- `collect_dtmf` is replaced by the caller's digits, given as input.
- `_play_prompt` (text-to-speech rendering and playback) becomes one `Play` command. Its
  `language` argument is always the default and is not carried.
- The return values of play, bridge, record and the lookups are ignored by the code, and the
  model does not carry them.
- StayOnCurrentMenuActions: `play_announcement` without a `target` is modelled as playing None
  and staying on the menu. Both text-to-speech backends slice the text for their log line, so the
  program raises an error there instead. The model does not carry that error.
- Exceptions raised by the services are not modelled. The code does not catch them, so they
  would leave `handle_incoming_call`.
- The call id is not carried. Every command goes to the one call being handled.
- HandleIncomingCall: runs at most `fuel` iterations and then reports `OutOfFuel` at the current
  node. The code's loop has no bound, and the model makes no termination claim.
- HandleIncomingCall: takes one `hour` for the whole call. The code reads the clock each time a
  time-based action runs.
- Logging is not modelled. The unknown-action and missing-node errors are only logged.
- The mock clients and the demo entry point are not modelled. The text-to-speech backends are not
  modelled either. As written, both only build a string from the text: the Polly backend's service
  call is commented out and it returns a mock file path, and the Asterisk backend returns
  `asterisk_tts://<text>`.
- Concurrent sessions, a session registry, hang-up and cancellation are not modelled. They do not
  exist in this code.
