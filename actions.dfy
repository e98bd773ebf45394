/** The action interpreter (`WazoIVRPlugin._apply_action`): dispatch on the
    action name, issue the commands the action needs, and name the next node,
    the token "current_menu" or "END". */
module Actions {
  import opened Wrappers
  import opened Flow
  import opened Menu

  /** Every action name the interpreter has a branch for. */
  const KnownActions := {
    RouteToQueue, TransferToExtension, LanguageSelection, CallRecordingTrigger,
    RepeatMenu, PlayAnnouncement, TimeBasedRouting, Exit}

  /** An action dictionary whose `action` key is absent or names no branch. */
  predicate IsUnknown(a: Action) {
    a.action.None? || a.action.value !in KnownActions
  }

  /** Whether the hour falls in business hours (the window [9, 17)). */
  predicate InBusinessHours(hour: Hour) {
    OpeningHour <= hour < ClosingHour
  }

  /** The node a time-based routing action picks at the given hour. */
  function TimeTarget(a: Action, hour: Hour): (r: string)
    ensures 9 <= hour < 17 ==> r == a.businessHoursTarget.GetOr("main_menu")
    ensures (hour < 9 || 17 <= hour) ==> r == a.afterHoursTarget.GetOr("voicemail_menu")
  {
    if InBusinessHours(hour) then a.businessHoursTarget.GetOr(MainMenu)
    else a.afterHoursTarget.GetOr(VoicemailMenu)
  }

  /** The f-string announcing a queue; a missing queue shows as "None". */
  function ConnectingPrompt(queue: Option<string>): (r: string)
    ensures queue.Some? ==> r == "Connecting you to " + queue.value + "."
    ensures queue.None? ==> r == "Connecting you to None."
  {
    "Connecting you to " + PyStr(queue) + "."
  }

  /** The f-string announcing an extension; a missing extension shows as "None". */
  function TransferringPrompt(extension: Option<string>): (r: string)
    ensures extension.Some? ==> r == "Transferring you to extension " + extension.value + "."
    ensures extension.None? ==> r == "Transferring you to extension None."
  {
    "Transferring you to extension " + PyStr(extension) + "."
  }

  /** The branch of the interpreter an action name selects. */
  datatype Branch =
    | QueueRouting | ExtensionTransfer | LanguageChoice | RecordingControl
    | MenuRepeat | Announcement | TimeRouting | ExitFlow | Unrecognised

  /** The interpreter's chain of comparisons on the action name, in its order. */
  function BranchOf(name: Option<string>): (b: Branch)
    ensures b == Unrecognised <==> name.None? || name.value !in KnownActions
  {
    if name == Some(RouteToQueue) then QueueRouting
    else if name == Some(TransferToExtension) then ExtensionTransfer
    else if name == Some(LanguageSelection) then LanguageChoice
    else if name == Some(CallRecordingTrigger) then RecordingControl
    else if name == Some(RepeatMenu) then MenuRepeat
    else if name == Some(PlayAnnouncement) then Announcement
    else if name == Some(TimeBasedRouting) then TimeRouting
    else if name == Some(Exit) then ExitFlow
    else Unrecognised
  }

  /** Applies one action. `hour` stands for the clock reading the time-based
      branch takes. */
  function ApplyAction(a: Action, hour: Hour): (r: Outcome)
    ensures |r.trace| <= 3
    // an action the interpreter does not know restarts at the main menu silently
    ensures IsUnknown(a) ==> r == Outcome(MainMenu, [])
  {
    var target := a.target;
    match BranchOf(a.action)
    case QueueRouting =>
      Outcome(End, [GetQueueAgents(target), Say(ConnectingPrompt(target)), Bridge(target)])
    case ExtensionTransfer =>
      Outcome(End, [GetUserDetails(target), Say(TransferringPrompt(target)), Bridge(target)])
    case LanguageChoice => Outcome(MainMenu, [])
    case RecordingControl =>
      if target == Some("start") then
        Outcome(CurrentMenu, [RecordCall(true), Say(RecordingStartedPrompt)])
      else if target == Some("stop") then
        Outcome(CurrentMenu, [RecordCall(false), Say(RecordingStoppedPrompt)])
      else
        Outcome(CurrentMenu, [])
    case MenuRepeat => Outcome(CurrentMenu, [])
    case Announcement => Outcome(CurrentMenu, [Play(target)])
    case TimeRouting => Outcome(TimeTarget(a, hour), [])
    case ExitFlow => Outcome(End, [Say(GoodbyePrompt)])
    case Unrecognised => Outcome(MainMenu, [])
  }

  /** What any action may issue: never a digit collection; a bridge only to
      exactly the target, as the last command, on an action that ends the call;
      a recording switch only from the recording trigger, on "start" or "stop". */
  lemma CommandDiscipline(a: Action, hour: Hour)
    ensures var r := ApplyAction(a, hour);
      forall i :: 0 <= i < |r.trace| ==>
        && !r.trace[i].CollectDtmf?
        && (r.trace[i].Bridge? ==>
              i == |r.trace| - 1 && r.trace[i].destination == a.target && r.value == End)
        && (r.trace[i].RecordCall? ==>
              && a.action == Some(CallRecordingTrigger) && r.value == CurrentMenu
              && a.target == Some(if r.trace[i].start then "start" else "stop"))
  {
  }

  /** "END" comes back exactly from the two transfers, exit, and a time-based
      target that is literally "END". */
  lemma EndExactly(a: Action, hour: Hour)
    ensures ApplyAction(a, hour).value == End <==>
      || a.action in {Some(RouteToQueue), Some(TransferToExtension), Some(Exit)}
      || (a.action == Some(TimeBasedRouting) && TimeTarget(a, hour) == End)
  {
  }

  /** Queue routing and extension transfer: a lookup, a prompt naming the
      target, then a bridge to exactly the target; the call then ends. */
  lemma TransfersBridgeTheTarget(a: Action, hour: Hour)
    requires a.action == Some(RouteToQueue) || a.action == Some(TransferToExtension)
    ensures var r := ApplyAction(a, hour);
      && r.value == End
      && |r.trace| == 3
      && (if a.action == Some(RouteToQueue)
          then r.trace[0] == GetQueueAgents(a.target) && r.trace[1] == Say(ConnectingPrompt(a.target))
          else r.trace[0] == GetUserDetails(a.target) && r.trace[1] == Say(TransferringPrompt(a.target)))
      && r.trace[2] == Bridge(a.target)
  {
  }

  /** Time-based routing issues nothing and picks the business-hours target
      (default the main menu) exactly when 9 <= hour < 17, the after-hours
      target (default the voicemail menu) otherwise. */
  lemma TimeBasedRoutingWindow(a: Action, hour: Hour)
    requires a.action == Some(TimeBasedRouting)
    ensures ApplyAction(a, hour).trace == []
    ensures 9 <= hour < 17 ==> ApplyAction(a, hour).value == a.businessHoursTarget.GetOr("main_menu")
    ensures !(9 <= hour < 17) ==> ApplyAction(a, hour).value == a.afterHoursTarget.GetOr("voicemail_menu")
  {
  }

  /** The edges of the business-hours window: 9 is open, 17 is closed. */
  lemma BusinessHoursBoundaries(business: string, afterHours: string)
    ensures var a := Action(Some(TimeBasedRouting), None, Some(business), Some(afterHours));
      && ApplyAction(a, 9).value == business
      && ApplyAction(a, 10).value == business
      && ApplyAction(a, 16).value == business
      && ApplyAction(a, 8).value == afterHours
      && ApplyAction(a, 17).value == afterHours
      && ApplyAction(a, 20).value == afterHours
  {
  }

  /** The actions that keep the caller on the current menu, and what each issues. */
  lemma StayOnCurrentMenuActions(a: Action, hour: Hour)
    ensures a.action == Some(RepeatMenu) ==> ApplyAction(a, hour) == Outcome(CurrentMenu, [])
    ensures a.action == Some(PlayAnnouncement) ==> ApplyAction(a, hour) == Outcome(CurrentMenu, [Play(a.target)])
    ensures a.action == Some(CallRecordingTrigger) ==>
      && ApplyAction(a, hour).value == CurrentMenu
      && (a.target == Some("start") ==> ApplyAction(a, hour).trace == [RecordCall(true), Say(RecordingStartedPrompt)])
      && (a.target == Some("stop") ==> ApplyAction(a, hour).trace == [RecordCall(false), Say(RecordingStoppedPrompt)])
      && (a.target != Some("start") && a.target != Some("stop") ==> ApplyAction(a, hour).trace == [])
  {
  }

  /** "current_menu" comes back exactly from the recording trigger, a repeat,
      an announcement, or a time-based target that is literally "current_menu". */
  lemma CurrentMenuExactly(a: Action, hour: Hour)
    ensures ApplyAction(a, hour).value == CurrentMenu <==>
      || a.action in {Some(CallRecordingTrigger), Some(RepeatMenu), Some(PlayAnnouncement)}
      || (a.action == Some(TimeBasedRouting) && TimeTarget(a, hour) == CurrentMenu)
  {
  }

  /** Language selection stores nothing and, like an unknown action, restarts
      at the main menu without a command; exit says goodbye and ends the call. */
  lemma MainMenuAndExitActions(a: Action, hour: Hour)
    ensures a.action == Some(LanguageSelection) ==> ApplyAction(a, hour) == Outcome(MainMenu, [])
    ensures a.action == Some(Exit) ==> ApplyAction(a, hour) == Outcome(End, [Say(GoodbyePrompt)])
    ensures a.action.None? ==> ApplyAction(a, hour) == Outcome(MainMenu, [])
  {
  }
}
