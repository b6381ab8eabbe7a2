/**
  What the command decision table guarantees: silence towards unauthorised
  senders, usage replies without remote calls, classified fetch errors, the
  start/stop status guards, and the order of effects once a start or stop has
  been accepted.
 */
module RouterProps {
  import opened YcApi
  import opened Errors
  import opened Effects
  import opened Router

  predicate IsSpawn(e: Effect)
  {
    e.Spawn?
  }

  predicate IsCallStart(e: Effect)
  {
    e.CallStart?
  }

  predicate IsCallStop(e: Effect)
  {
    e.CallStop?
  }

  /** A sender outside the whitelist gets no reply and causes no remote call,
      whatever the command, its arguments and the cloud's answers. */
  lemma UnauthorizedIsSilent(cfg: Config, cmd: Command, req: Request, remote: Remote)
    requires !Authorized(cfg, req.uid)
    ensures CommandEffects(cfg, cmd, req, remote) == []
  {
  }

  /** An authorised sender gets exactly one plain reply, in the chat the
      command came from, whatever else happens (the notification and the
      tracker messages are MarkdownV2). */
  lemma {:induction false} AuthorizedGetsOneReply(cfg: Config, cmd: Command, req: Request, remote: Remote)
    requires Authorized(cfg, req.uid)
    ensures var effs := CommandEffects(cfg, cmd, req, remote);
      Count(effs, IsPlainReply) == 1
      && forall i :: 0 <= i < |effs| && IsPlainReply(effs[i]) ==> effs[i].cid == req.cid
  {
    var effs := CommandEffects(cfg, cmd, req, remote);
    if cmd.OnInstance? && |req.args| > 0 {
      var tail := effs[1..];
      assert effs == [CallGet(req.args[0])] + tail;
      CountAppend([CallGet(req.args[0])], tail, IsPlainReply);
      match remote.fetched
      case Err(e) =>
      case Ok(inst) =>
        match cmd.ic
        case StatusCmd =>
        case GetIpCmd =>
        case StartVmCmd =>
          if StartGuard(inst.status).None? {
            LaunchHasOneReply(cfg.notifyCid, StartTracker, req.cid, req.args[0], remote.mutated);
            CountAppend([CallStart(inst.id)], Launch(cfg.notifyCid, StartTracker, req.cid, req.args[0], remote.mutated), IsPlainReply);
            assert tail == [CallStart(inst.id)] + Launch(cfg.notifyCid, StartTracker, req.cid, req.args[0], remote.mutated);
          }
        case StopVmCmd =>
          if StopGuard(inst.status).None? {
            LaunchHasOneReply(cfg.notifyCid, StopTracker, req.cid, req.args[0], remote.mutated);
            CountAppend([CallStop(inst.id)], Launch(cfg.notifyCid, StopTracker, req.cid, req.args[0], remote.mutated), IsPlainReply);
            assert tail == [CallStop(inst.id)] + Launch(cfg.notifyCid, StopTracker, req.cid, req.args[0], remote.mutated);
          }
    }
  }

  /** The launch step holds one plain reply, to the requester, and no remote
      call. */
  lemma LaunchHasOneReply(notifyCid: Option<int>, kind: TrackerKind, cid: int, instId: string, mutated: Outcome<Operation>)
    ensures var effs := Launch(notifyCid, kind, cid, instId, mutated);
      Count(effs, IsPlainReply) == 1
      && Count(effs, IsRemoteCall) == 0
      && forall i :: 0 <= i < |effs| && IsPlainReply(effs[i]) ==> effs[i].cid == cid
  {
  }

  /** Every command makes at most two remote calls (the fetch and one start or
      stop) and at most one of them mutates; `/start` and unknown commands make
      none. */
  lemma RemoteCallsBounded(cfg: Config, cmd: Command, req: Request, remote: Remote)
    ensures var effs := CommandEffects(cfg, cmd, req, remote);
      Count(effs, IsRemoteCall) <= 2
      && Count(effs, IsMutatingCall) <= 1
      && (!cmd.OnInstance? ==> Count(effs, IsRemoteCall) == 0)
  {
  }

  /** An instance command without an argument only replies with its usage
      line: no remote call at all. */
  lemma MissingArgumentOnlyUsage(cfg: Config, ic: InstanceCommand, req: Request, remote: Remote)
    requires Authorized(cfg, req.uid) && req.args == []
    ensures CommandEffects(cfg, OnInstance(ic), req, remote) == [Reply(req.cid, "Usage: /" + CommandName(ic) + " INSTANCE_ID")]
    ensures Count(CommandEffects(cfg, OnInstance(ic), req, remote), IsRemoteCall) == 0
  {
  }

  /** If fetching the instance fails, the fetch is followed by the classified
      error and nothing else: no start or stop call. */
  lemma FetchFailureOnlyError(cfg: Config, ic: InstanceCommand, req: Request, remote: Remote)
    requires Authorized(cfg, req.uid) && |req.args| > 0 && remote.fetched.Err?
    ensures CommandEffects(cfg, OnInstance(ic), req, remote)
      == [CallGet(req.args[0]), Reply(req.cid, ErrorString(remote.fetched.error))]
    ensures Count(CommandEffects(cfg, OnInstance(ic), req, remote), IsMutatingCall) == 0
  {
  }

  /** `start_vm` on a RUNNING or PROVISIONING instance only replies that the VM
      is already running or starting; the start call is never made. */
  lemma StartVmRefused(cfg: Config, req: Request, remote: Remote)
    requires Authorized(cfg, req.uid) && |req.args| > 0 && remote.fetched.Ok?
    requires remote.fetched.value.status in {RUNNING, PROVISIONING}
    ensures CommandEffects(cfg, OnInstance(StartVmCmd), req, remote)
      == [CallGet(req.args[0]),
          Reply(req.cid, if remote.fetched.value.status == RUNNING then "VM is already running" else "VM is already starting")]
  {
  }

  /** `stop_vm` on a STOPPED or STOPPING instance only replies that the VM is
      already stopped or stopping; the stop call is never made. */
  lemma StopVmRefused(cfg: Config, req: Request, remote: Remote)
    requires Authorized(cfg, req.uid) && |req.args| > 0 && remote.fetched.Ok?
    requires remote.fetched.value.status in {STOPPED, STOPPING}
    ensures CommandEffects(cfg, OnInstance(StopVmCmd), req, remote)
      == [CallGet(req.args[0]),
          Reply(req.cid, if remote.fetched.value.status == STOPPED then "VM is already stopped" else "VM is already stopping")]
  {
  }

  /** `start_vm` calls start exactly when the sender is authorised, gave an id,
      the fetch succeeded and the instance is neither RUNNING nor
      PROVISIONING; it never calls stop. */
  lemma StartCalledIff(cfg: Config, req: Request, remote: Remote)
    ensures var effs := CommandEffects(cfg, OnInstance(StartVmCmd), req, remote);
      Count(effs, IsCallStart) == (if Authorized(cfg, req.uid) && |req.args| > 0 && remote.fetched.Ok?
                                      && remote.fetched.value.status !in {RUNNING, PROVISIONING} then 1 else 0)
      && Count(effs, IsCallStop) == 0
  {
  }

  /** `stop_vm` calls stop exactly when the sender is authorised, gave an id,
      the fetch succeeded and the instance is neither STOPPED nor STOPPING;
      it never calls start. */
  lemma StopCalledIff(cfg: Config, req: Request, remote: Remote)
    ensures var effs := CommandEffects(cfg, OnInstance(StopVmCmd), req, remote);
      Count(effs, IsCallStop) == (if Authorized(cfg, req.uid) && |req.args| > 0 && remote.fetched.Ok?
                                     && remote.fetched.value.status !in {STOPPED, STOPPING} then 1 else 0)
      && Count(effs, IsCallStart) == 0
  {
  }

  /** An accepted `start_vm` whose start call succeeds: the fetch, the start
      call, the "starting" reply, the tracker spawn and then the notification,
      in that order. The notification does not depend on how the tracker later
      ends: the tracker's outcome is not an input here. */
  lemma StartVmAccepted(cfg: Config, req: Request, remote: Remote)
    requires Authorized(cfg, req.uid) && |req.args| > 0 && remote.fetched.Ok? && remote.mutated.Ok?
    requires remote.fetched.value.status !in {RUNNING, PROVISIONING}
    ensures CommandEffects(cfg, OnInstance(StartVmCmd), req, remote)
      == [CallGet(req.args[0]), CallStart(remote.fetched.value.id),
          Reply(req.cid, "VM is starting..."), Spawn(StartTracker, remote.mutated.value, req.cid, req.args[0])]
         + NotifyEffects(cfg.notifyCid, req.args[0], "started")
  {
  }

  /** An accepted `stop_vm` whose stop call succeeds: the fetch, the stop call,
      the "stopping" reply, the tracker spawn and then the notification. */
  lemma StopVmAccepted(cfg: Config, req: Request, remote: Remote)
    requires Authorized(cfg, req.uid) && |req.args| > 0 && remote.fetched.Ok? && remote.mutated.Ok?
    requires remote.fetched.value.status !in {STOPPED, STOPPING}
    ensures CommandEffects(cfg, OnInstance(StopVmCmd), req, remote)
      == [CallGet(req.args[0]), CallStop(remote.fetched.value.id),
          Reply(req.cid, "VM is stopping..."), Spawn(StopTracker, remote.mutated.value, req.cid, req.args[0])]
         + NotifyEffects(cfg.notifyCid, req.args[0], "stopped")
  {
  }

  /** A failed start or stop call is followed by one error reply: no tracker
      is spawned and nobody is notified. */
  lemma MutationFailureNoSpawn(cfg: Config, ic: InstanceCommand, req: Request, remote: Remote)
    requires ic == StartVmCmd || ic == StopVmCmd
    requires Authorized(cfg, req.uid) && |req.args| > 0 && remote.fetched.Ok? && remote.mutated.Err?
    requires ic == StartVmCmd ==> remote.fetched.value.status !in {RUNNING, PROVISIONING}
    requires ic == StopVmCmd ==> remote.fetched.value.status !in {STOPPED, STOPPING}
    ensures var effs := CommandEffects(cfg, OnInstance(ic), req, remote);
      effs == [CallGet(req.args[0]),
               if ic == StartVmCmd then CallStart(remote.fetched.value.id) else CallStop(remote.fetched.value.id),
               Reply(req.cid, if ic == StartVmCmd then "An error occured, maybe the instance is already running"
                              else "An unknown error occured")]
      && Count(effs, IsSpawn) == 0
  {
  }

  /** `get_ip` replies that the VM is not running unless the instance is
      RUNNING; a RUNNING instance without interfaces has no external IP; one
      whose first interface has an address shows that address. */
  lemma GetIpReplies(cfg: Config, req: Request, remote: Remote)
    requires Authorized(cfg, req.uid) && |req.args| > 0 && remote.fetched.Ok?
    ensures var inst := remote.fetched.value;
      var effs := CommandEffects(cfg, OnInstance(GetIpCmd), req, remote);
      && (inst.status != RUNNING ==> effs == [CallGet(req.args[0]), Reply(req.cid, "VM is not running")])
      && (inst.status == RUNNING && inst.interfaces == [] ==> effs == [CallGet(req.args[0]), Reply(req.cid, "No external IP")])
      && (inst.status == RUNNING && |inst.interfaces| > 0 && inst.interfaces[0].natAddress != "" ==>
            effs == [CallGet(req.args[0]), Reply(req.cid, "IP: " + inst.interfaces[0].natAddress)])
  {
  }

  /** The `status` reply depends on nothing but the fetched status: asking twice
      about an unchanged instance gives the same reply. */
  lemma StatusDependsOnlyOnStatus(cfg: Config, req: Request, a: Instance, b: Instance, m: Outcome<Operation>, m': Outcome<Operation>)
    requires Authorized(cfg, req.uid) && |req.args| > 0 && a.status == b.status
    ensures CommandEffects(cfg, OnInstance(StatusCmd), req, Remote(Ok(a), m))
      == CommandEffects(cfg, OnInstance(StatusCmd), req, Remote(Ok(b), m'))
      == [CallGet(req.args[0]), Reply(req.cid, "Status: " + StatusName(a.status))]
  {
  }

  /** The `/status` reply names the fetched status, and two snapshots give the
      same `/status` effects exactly when their statuses agree. */
  lemma {:induction false} StatusReplyIdentifiesStatus(cfg: Config, req: Request, a: Instance, b: Instance, m: Outcome<Operation>)
    requires Authorized(cfg, req.uid) && |req.args| > 0
    ensures a.status == RUNNING ==>
      CommandEffects(cfg, OnInstance(StatusCmd), req, Remote(Ok(a), m)) == [CallGet(req.args[0]), Reply(req.cid, "Status: RUNNING")]
    ensures (CommandEffects(cfg, OnInstance(StatusCmd), req, Remote(Ok(a), m))
             == CommandEffects(cfg, OnInstance(StatusCmd), req, Remote(Ok(b), m)))
            <==> a.status == b.status
  {
    var ea := CommandEffects(cfg, OnInstance(StatusCmd), req, Remote(Ok(a), m));
    var eb := CommandEffects(cfg, OnInstance(StatusCmd), req, Remote(Ok(b), m));
    if a.status == RUNNING {
      assert "Status: " + StatusName(a.status) == "Status: RUNNING";
    }
    if ea == eb {
      var ta := "Status: " + StatusName(a.status);
      var tb := "Status: " + StatusName(b.status);
      assert ea[1].text == ta && eb[1].text == tb;
      assert ta[8..] == StatusName(a.status) && tb[8..] == StatusName(b.status);
      StatusNameInjective(a.status, b.status);
    }
  }

  // ----- The background trackers -----

  /** The start tracker reports a start that did not reach RUNNING with the
      same message whatever else the instance shows: no address is sent. */
  lemma StartTrackerNotRunning(cid: int, instId: string, a: Instance, b: Instance, escape: string -> string)
    requires a.status != RUNNING && b.status != RUNNING
    ensures StartTrackerReply(cid, instId, Ok(a), escape) == StartTrackerReply(cid, instId, Ok(b), escape)
      == Send(cid, "`" + instId + "` failed to start or was stopped", MarkdownV2)
  {
  }

  /** A start that reached RUNNING is confirmed with the escaped address text
      of the resulting instance. */
  lemma StartTrackerRunning(cid: int, instId: string, inst: Instance, escape: string -> string)
    requires inst.status == RUNNING
    ensures StartTrackerReply(cid, instId, Ok(inst), escape)
      == Send(cid, "`" + instId + "` is now running \\(" + escape(IpStr(GetIp(inst))) + "\\)", MarkdownV2)
  {
  }

  /** The three ways a start can end produce three different messages. */
  lemma {:induction false} StartTrackerOutcomesDistinct(cid: int, instId: string, e: Error, stopped: Instance, running: Instance, escape: string -> string)
    requires stopped.status != RUNNING && running.status == RUNNING
    ensures StartTrackerReply(cid, instId, Err(e), escape).text != StartTrackerReply(cid, instId, Ok(stopped), escape).text
    ensures StartTrackerReply(cid, instId, Err(e), escape).text != StartTrackerReply(cid, instId, Ok(running), escape).text
    ensures StartTrackerReply(cid, instId, Ok(stopped), escape).text != StartTrackerReply(cid, instId, Ok(running), escape).text
  {
    var failed := StartTrackerReply(cid, instId, Err(e), escape).text;
    var notRunning := StartTrackerReply(cid, instId, Ok(stopped), escape).text;
    var nowRunning := StartTrackerReply(cid, instId, Ok(running), escape).text;
    assert failed[0] == 'A' && notRunning[0] == '`' && nowRunning[0] == '`';
    var k := |instId| + 3;
    assert notRunning[k] == 'f';
    assert nowRunning[k] == 'i';
  }

  /** The stop tracker confirms a completed stop and reports a failed wait,
      with different messages. */
  lemma StopTrackerOutcomesDistinct(cid: int, instId: string, e: Error)
    ensures StopTrackerReply(cid, instId, Ok(())) == Send(cid, "Stopped `" + instId + "`", MarkdownV2)
    ensures StopTrackerReply(cid, instId, Err(e)).text != StopTrackerReply(cid, instId, Ok(())).text
  {
    assert StopTrackerReply(cid, instId, Err(e)).text[0] == 'A';
    assert StopTrackerReply(cid, instId, Ok(())).text[0] == 'S';
  }
}
