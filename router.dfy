/**
  The bot's decision layer as pure functions: for each chat command, the
  sequence of effects it performs given the requester, the command's
  arguments and the outcomes of the remote calls it makes. Also the reply
  texts, the notification sink and the replies of the two background trackers.
  The imperative handlers in module BotClass are proved to append exactly these
  effects to the bot's log.
 */
module Router {
  import opened YcApi
  import opened Errors
  import opened Effects

  datatype Option<+T> = None | Some(value: T)

  /** The bot's static configuration: the allow-listed user ids and the chat
      that is told about every accepted start/stop, if any. */
  datatype Config = Config(whitelist: seq<int>, notifyCid: Option<int>)

  /** One inbound command: the sender's user id, the chat to reply to and the
      words that followed the command. */
  datatype Request = Request(uid: int, cid: int, args: seq<string>)

  /** What the cloud answered: to fetching the instance, and to the start or
      stop call (ignored by commands that make no such call). */
  datatype Remote = Remote(fetched: Outcome<Instance>, mutated: Outcome<Operation>)

  /** The commands that act on an instance and need its id as an argument. */
  datatype InstanceCommand = StatusCmd | GetIpCmd | StartVmCmd | StopVmCmd

  /** `/start`, any unrecognised command, or an instance command. */
  datatype Command = Help | Unknown | OnInstance(ic: InstanceCommand)

  const HelpText: string := "Available commands: /status, /get_ip, /start_vm, /stop_vm"
  const UnknownCommandText: string := "Unknown command. Available commands: /status, /get_ip, /start_vm, /stop_vm"
  const NotRunningText: string := "VM is not running"
  const AlreadyRunningText: string := "VM is already running"
  const AlreadyStartingText: string := "VM is already starting"
  const AlreadyStoppedText: string := "VM is already stopped"
  const AlreadyStoppingText: string := "VM is already stopping"
  const StartCallFailedText: string := "An error occured, maybe the instance is already running"
  const StartingText: string := "VM is starting..."
  const StoppingText: string := "VM is stopping..."
  const NoExternalIpText: string := "No external IP"

  function CommandName(ic: InstanceCommand): string
  {
    match ic
    case StatusCmd => "status"
    case GetIpCmd => "get_ip"
    case StartVmCmd => "start_vm"
    case StopVmCmd => "stop_vm"
  }

  /** The usage line of an instance command: the command's name between a
      fixed head and tail, so the line says which command was misused. */
  function Usage(ic: InstanceCommand): (line: string)
    ensures |line| == 20 + |CommandName(ic)|
    ensures line[..8] == "Usage: /" && line[|line| - 12..] == " INSTANCE_ID"
    ensures line[8..|line| - 12] == CommandName(ic)
  {
    "Usage: /" + CommandName(ic) + " INSTANCE_ID"
  }

  /** The whitelist check every command handler is wrapped in. */
  predicate Authorized(cfg: Config, uid: int)
    ensures Authorized(cfg, uid) <==> exists i :: 0 <= i < |cfg.whitelist| && cfg.whitelist[i] == uid
  {
    uid in cfg.whitelist
  }

  /** The text shown for an instance's external address. */
  function IpStr(ip: string): (text: string)
    ensures ip == "" <==> text == NoExternalIpText
  {
    if ip != "" then
      assert ("IP: " + ip)[0] != NoExternalIpText[0];
      "IP: " + ip
    else NoExternalIpText
  }

  /** Reads the address back out of an `IpStr` text. */
  function IpOfIpStr(text: string): string
  {
    if text == NoExternalIpText || |text| < 4 then "" else text[4..]
  }

  /** `IpStr` loses nothing: the address is recovered from the text, so two
      different addresses are never shown alike. */
  lemma IpStrRoundTrip(ip: string)
    ensures IpOfIpStr(IpStr(ip)) == ip
  {
  }

  /** The message sent to the notification chat: the instance id in code
      markup, then the action verb. */
  function NotifyText(instId: string, action: string): (text: string)
    ensures |text| == 10 + |instId| + |action|
    ensures text[..4] == "\U{26A0}\U{FE0F} `" && text[4..4 + |instId|] == instId
    ensures text[4 + |instId|..10 + |instId|] == "` was " && text[|text| - |action|..] == action
  {
    "\U{26A0}\U{FE0F} `" + instId + "` was " + action
  }

  /** The notification sink: nothing without a notification chat, otherwise
      one MarkdownV2 message to that chat. */
  function NotifyEffects(notifyCid: Option<int>, instId: string, action: string): (effs: seq<Effect>)
    ensures effs == [] <==> notifyCid.None?
    ensures |effs| <= 1
    ensures forall e :: e in effs ==>
      e.Send? && e.cid == notifyCid.value && e.mode == MarkdownV2 && e.text == NotifyText(instId, action)
  {
    match notifyCid
    case None => []
    case Some(cid) => [Send(cid, NotifyText(instId, action), MarkdownV2)]
  }

  /** `start_vm`'s refusals: an instance that is running or provisioning is not
      started again. */
  function StartGuard(s: InstanceStatus): (refusal: Option<string>)
    ensures refusal.None? <==> s != RUNNING && s != PROVISIONING
  {
    if s == RUNNING then Some(AlreadyRunningText)
    else if s == PROVISIONING then Some(AlreadyStartingText)
    else None
  }

  /** `stop_vm`'s refusals: an instance that is stopped or stopping is not
      stopped again. */
  function StopGuard(s: InstanceStatus): (refusal: Option<string>)
    ensures refusal.None? <==> s != STOPPED && s != STOPPING
  {
    if s == STOPPED then Some(AlreadyStoppedText)
    else if s == STOPPING then Some(AlreadyStoppingText)
    else None
  }

  /** After the start or stop call: on failure one error reply; on success the
      in-progress reply, the tracker spawn, then the notification. */
  function Launch(notifyCid: Option<int>, kind: TrackerKind, cid: int, instId: string, mutated: Outcome<Operation>): (effs: seq<Effect>)
    ensures effs != [] && IsPlainReply(effs[0]) && effs[0].cid == cid
    ensures mutated.Err? ==> |effs| == 1
    ensures mutated.Ok? ==>
      (&& |effs| >= 2
       && effs[1] == Spawn(kind, mutated.value, cid, instId)
       && effs[2..] == NotifyEffects(notifyCid, instId, if kind == StartTracker then "started" else "stopped"))
    ensures forall e :: e in effs ==> !IsRemoteCall(e)
  {
    match mutated
    case Err(_) =>
      [Reply(cid, if kind == StartTracker then StartCallFailedText else UnknownError)]
    case Ok(op) =>
      [Reply(cid, if kind == StartTracker then StartingText else StoppingText), Spawn(kind, op, cid, instId)]
        + NotifyEffects(notifyCid, instId, if kind == StartTracker then "started" else "stopped")
  }

  /** What an instance command does once the instance was fetched. */
  function AfterFetch(notifyCid: Option<int>, ic: InstanceCommand, cid: int, instId: string, inst: Instance, mutated: Outcome<Operation>): (effs: seq<Effect>)
    ensures effs != []
    ensures IsMutatingCall(effs[0]) <==>
      (ic == StartVmCmd && StartGuard(inst.status).None?) || (ic == StopVmCmd && StopGuard(inst.status).None?)
    ensures IsMutatingCall(effs[0]) ==> effs[0] == (if ic == StartVmCmd then CallStart(inst.id) else CallStop(inst.id))
    ensures !IsMutatingCall(effs[0]) ==> |effs| == 1 && IsPlainReply(effs[0]) && effs[0].cid == cid
    ensures forall i :: 1 <= i < |effs| ==> !IsRemoteCall(effs[i])
  {
    match ic
    case StatusCmd => [Reply(cid, "Status: " + StatusName(inst.status))]
    case GetIpCmd =>
      if inst.status != RUNNING then [Reply(cid, NotRunningText)]
      else [Reply(cid, IpStr(GetIp(inst)))]
    case StartVmCmd =>
      (match StartGuard(inst.status)
       case Some(refusal) => [Reply(cid, refusal)]
       case None => [CallStart(inst.id)] + Launch(notifyCid, StartTracker, cid, instId, mutated))
    case StopVmCmd =>
      (match StopGuard(inst.status)
       case Some(refusal) => [Reply(cid, refusal)]
       case None => [CallStop(inst.id)] + Launch(notifyCid, StopTracker, cid, instId, mutated))
  }

  /** The effects of one command, in order: nothing for a sender outside the
      whitelist; the command list for `/start` and unknown commands; for an
      instance command a usage reply without an argument, otherwise the fetch
      and then either the classified fetch error or the command's own steps. */
  function CommandEffects(cfg: Config, cmd: Command, req: Request, remote: Remote): (effs: seq<Effect>)
    ensures effs == [] <==> !Authorized(cfg, req.uid)
    ensures effs != [] && IsRemoteCall(effs[0]) ==>
      cmd.OnInstance? && |req.args| > 0 && effs[0] == CallGet(req.args[0])
    ensures forall i :: 2 <= i < |effs| ==> !IsRemoteCall(effs[i])
    ensures |effs| > 1 && IsRemoteCall(effs[1]) ==> remote.fetched.Ok? && IsMutatingCall(effs[1])
  {
    if !Authorized(cfg, req.uid) then []
    else
      match cmd
      case Help => [Reply(req.cid, HelpText)]
      case Unknown => [Reply(req.cid, UnknownCommandText)]
      case OnInstance(ic) =>
        if |req.args| == 0 then [Reply(req.cid, Usage(ic))]
        else
          [CallGet(req.args[0])] +
          match remote.fetched
          case Err(e) => [Reply(req.cid, ErrorString(e))]
          case Ok(inst) => AfterFetch(cfg.notifyCid, ic, req.cid, req.args[0], inst, remote.mutated)
  }

  // ----- The background trackers -----

  /** The one message the start tracker sends once the start operation has
      been awaited: an error, a failure to reach RUNNING, or the running
      confirmation with the (escaped) address text. */
  function StartTrackerReply(cid: int, instId: string, waited: Outcome<Instance>, escape: string -> string): (e: Effect)
    ensures e.Send? && e.cid == cid && e.mode == MarkdownV2
    ensures waited.Err? ==> e.text == "An unknown error occured while starting `" + instId + "`"
  {
    match waited
    case Err(_) => Send(cid, "An unknown error occured while starting `" + instId + "`", MarkdownV2)
    case Ok(inst) =>
      if inst.status != RUNNING then Send(cid, "`" + instId + "` failed to start or was stopped", MarkdownV2)
      else Send(cid, "`" + instId + "` is now running \\(" + escape(IpStr(GetIp(inst))) + "\\)", MarkdownV2)
  }

  /** The one message the stop tracker sends once the stop operation has been
      awaited. */
  function StopTrackerReply(cid: int, instId: string, waited: Outcome<()>): (e: Effect)
    ensures e.Send? && e.cid == cid && e.mode == MarkdownV2
    ensures waited.Err? ==> e.text == "An unknown error occured while stopping `" + instId + "`"
  {
    match waited
    case Err(_) => Send(cid, "An unknown error occured while stopping `" + instId + "`", MarkdownV2)
    case Ok(_) => Send(cid, "Stopped `" + instId + "`", MarkdownV2)
  }
}
