/**
  The bot object: its configuration, set once at construction, and the log of
  everything it has done so far. Each command handler runs the source's
  step-by-step sequence with early returns, appending its sends, remote calls
  and spawns to the log, and is proved to append exactly the effects the
  decision table in module Router gives for that command.
 */
module BotClass {
  import opened YcApi
  import opened Errors
  import opened Effects
  import opened Router

  class Bot {
    const config: Config
    /** MarkdownV2 escaping as the chat library performs it; not modelled. */
    const escape: string -> string
    /** Everything the bot has done, oldest first. */
    var log: seq<Effect>

    constructor (config: Config, escape: string -> string)
      ensures this.config == config && this.escape == escape && log == []
    {
      this.config := config;
      this.escape := escape;
      log := [];
    }

    method StartCmd(req: Request, remote: Remote)
      modifies this
      ensures log == old(log) + CommandEffects(config, Help, req, remote)
    {
      if !Authorized(config, req.uid) {
        return;
      }
      log := log + [Reply(req.cid, HelpText)];
    }

    method UnknownCmd(req: Request, remote: Remote)
      modifies this
      ensures log == old(log) + CommandEffects(config, Unknown, req, remote)
    {
      if !Authorized(config, req.uid) {
        return;
      }
      log := log + [Reply(req.cid, UnknownCommandText)];
    }

    method HandleStatus(req: Request, remote: Remote)
      modifies this
      ensures log == old(log) + CommandEffects(config, OnInstance(StatusCmd), req, remote)
    {
      if !Authorized(config, req.uid) {
        return;
      }
      var cid := req.cid;
      if |req.args| == 0 {
        log := log + [Reply(cid, Usage(StatusCmd))];
        return;
      }
      var instId := req.args[0];
      log := log + [CallGet(instId)];
      if remote.fetched.Err? {
        log := log + [Reply(cid, ErrorString(remote.fetched.error))];
        return;
      }
      var inst := remote.fetched.value;
      log := log + [Reply(cid, "Status: " + StatusName(inst.status))];
    }

    method HandleGetIp(req: Request, remote: Remote)
      modifies this
      ensures log == old(log) + CommandEffects(config, OnInstance(GetIpCmd), req, remote)
    {
      if !Authorized(config, req.uid) {
        return;
      }
      var cid := req.cid;
      if |req.args| == 0 {
        log := log + [Reply(cid, Usage(GetIpCmd))];
        return;
      }
      var instId := req.args[0];
      log := log + [CallGet(instId)];
      if remote.fetched.Err? {
        log := log + [Reply(cid, ErrorString(remote.fetched.error))];
        return;
      }
      var inst := remote.fetched.value;
      if inst.status != RUNNING {
        log := log + [Reply(cid, NotRunningText)];
        return;
      }
      log := log + [Reply(cid, IpStr(GetIp(inst)))];
    }

    method StartVm(req: Request, remote: Remote)
      modifies this
      ensures log == old(log) + CommandEffects(config, OnInstance(StartVmCmd), req, remote)
    {
      if !Authorized(config, req.uid) {
        return;
      }
      var cid := req.cid;
      if |req.args| == 0 {
        log := log + [Reply(cid, Usage(StartVmCmd))];
        return;
      }
      var instId := req.args[0];
      log := log + [CallGet(instId)];
      if remote.fetched.Err? {
        log := log + [Reply(cid, ErrorString(remote.fetched.error))];
        return;
      }
      var inst := remote.fetched.value;
      if inst.status == RUNNING {
        log := log + [Reply(cid, AlreadyRunningText)];
        return;
      }
      if inst.status == PROVISIONING {
        log := log + [Reply(cid, AlreadyStartingText)];
        return;
      }
      log := log + [CallStart(inst.id)];
      if remote.mutated.Err? {
        log := log + [Reply(cid, StartCallFailedText)];
        return;
      }
      var op := remote.mutated.value;
      log := log + [Reply(cid, StartingText)];
      log := log + [Spawn(StartTracker, op, cid, instId)];
      Notify(instId, "started");
    }

    method StopVm(req: Request, remote: Remote)
      modifies this
      ensures log == old(log) + CommandEffects(config, OnInstance(StopVmCmd), req, remote)
    {
      if !Authorized(config, req.uid) {
        return;
      }
      var cid := req.cid;
      if |req.args| == 0 {
        log := log + [Reply(cid, Usage(StopVmCmd))];
        return;
      }
      var instId := req.args[0];
      log := log + [CallGet(instId)];
      if remote.fetched.Err? {
        log := log + [Reply(cid, ErrorString(remote.fetched.error))];
        return;
      }
      var inst := remote.fetched.value;
      if inst.status == STOPPED {
        log := log + [Reply(cid, AlreadyStoppedText)];
        return;
      }
      if inst.status == STOPPING {
        log := log + [Reply(cid, AlreadyStoppingText)];
        return;
      }
      log := log + [CallStop(inst.id)];
      if remote.mutated.Err? {
        log := log + [Reply(cid, UnknownError)];
        return;
      }
      var op := remote.mutated.value;
      log := log + [Reply(cid, StoppingText)];
      log := log + [Spawn(StopTracker, op, cid, instId)];
      Notify(instId, "stopped");
    }

    /** The notification sink: does nothing without a notification chat. */
    method Notify(instId: string, action: string)
      modifies this
      ensures log == old(log) + NotifyEffects(config.notifyCid, instId, action)
    {
      var cid := config.notifyCid;
      if cid.None? {
        return;
      }
      log := log + [Send(cid.value, NotifyText(instId, action), MarkdownV2)];
    }

    /** The start tracker's body once the operation has been awaited. */
    method WaitForStart(cid: int, instId: string, waited: Outcome<Instance>)
      modifies this
      ensures log == old(log) + [StartTrackerReply(cid, instId, waited, escape)]
    {
      if waited.Err? {
        log := log + [Send(cid, "An unknown error occured while starting `" + instId + "`", MarkdownV2)];
        return;
      }
      var inst := waited.value;
      if inst.status != RUNNING {
        log := log + [Send(cid, "`" + instId + "` failed to start or was stopped", MarkdownV2)];
        return;
      }
      var ipStr := escape(IpStr(GetIp(inst)));
      log := log + [Send(cid, "`" + instId + "` is now running \\(" + ipStr + "\\)", MarkdownV2)];
    }

    /** The stop tracker's body once the operation has been awaited. */
    method WaitForStop(cid: int, instId: string, waited: Outcome<()>)
      modifies this
      ensures log == old(log) + [StopTrackerReply(cid, instId, waited)]
    {
      if waited.Err? {
        log := log + [Send(cid, "An unknown error occured while stopping `" + instId + "`", MarkdownV2)];
        return;
      }
      log := log + [Send(cid, "Stopped `" + instId + "`", MarkdownV2)];
    }
  }
}
