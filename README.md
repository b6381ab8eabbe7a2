# yc_vm_controller decision layer, in Dafny

A Telegram bot lets allow-listed users query and start/stop one Yandex Cloud
VM. Under its transport glue sits a small decision layer, and this project
models and verifies that layer:

- **YcApi** (`yc_api.dfy`) holds the instance snapshot: a `Status` with the
  members the bot inspects (`PROVISIONING`, `RUNNING`, `STOPPING`, `STOPPED`)
  plus `Other(name)` for the rest of the provider's enumeration, network
  interfaces carrying a NAT address, and `GetIp`, the pure extraction of the
  external address.
- **Errors** (`errors.dfy`) holds remote-call failures (`Rpc(details)` or
  `NonRpc`), the `Outcome` of a remote call, and `ErrorString`
  (`get_error_str`), which maps every failure to one of exactly two messages.
- **Effects** (`effects.dfy`) holds the effect log entries. They are plain or
  MarkdownV2 sends, the `get`/`start`/`stop` calls, and tracker spawns. A
  `Count` over a log backs the "how many remote calls / replies" statements.
- **Router** (`router.dfy`) is the decision table as pure functions. It has
  the whitelist check, usage replies, the `start_vm`/`stop_vm` status guards,
  the launch step (in-progress reply, spawn, notify), the notification sink
  `_notify`, `_ip_str`, and the single message each background tracker sends
  once its operation has been awaited.
- **RouterProps** (`router_props.dfy`) holds the lemmas about that table.
- **BotClass** (`bot.dfy`) is the `Bot` object. Its configuration is fixed
  at construction and its effect log is a `seq` field. Each handler is a
  method that runs the source's steps with early returns and is proved to
  append exactly the effects `Router.CommandEffects` gives.

A handler takes the request (sender id, chat id, arguments) and the
cloud's answers (`Remote`: the fetch outcome and the start/stop outcome) as
inputs. The remote calls appear in the log as `CallGet`/`CallStart`/`CallStop`
at the point they are made.

Failure replies follow the code exactly. A failed start call replies
`'An error occured, maybe the instance is already running'` (src/main.py:152).
A failed stop call replies `'An unknown error occured'` (src/main.py:180). The
notification is sent under MarkdownV2 without escaping the instance id
(src/main.py:190).

## Model

| member | source | states |
|---|---|---|
| YcApi.StatusName | src/yc_api.py:14 | PROVISIONING, RUNNING, STOPPING and STOPPED are shown by those names; any other status by its own enumeration name, which is never one of the four (the `InstanceStatus` subset type) |
| YcApi.StatusNameInjective | src/yc_api.py:14 | two statuses with the same name are the same status |
| YcApi.StatusNameDistinct | src/yc_api.py:14 | the four named statuses have pairwise different names |
| YcApi.GetIp | src/yc_api.py:44-50 | a non-empty address implies RUNNING with at least one interface; a RUNNING instance with interfaces yields the first interface's NAT address |
| YcApi.GetIpNotRunning | src/yc_api.py:45-46 | a non-RUNNING instance yields `''` whatever its interfaces |
| YcApi.GetIpNoInterfaces | src/yc_api.py:47-49 | a RUNNING instance without interfaces yields `''` |
| YcApi.GetIpIgnoresLaterInterfaces | src/yc_api.py:50 | only the first interface matters: replacing or dropping the later ones never changes the address |
| Errors.ReportsInvalidId | src/main.py:58-61 | holds exactly when the details begin with the 19 characters `invalid instance id`, or begin with the 12 characters `The instance` and end with the 9 characters `not found` |
| Errors.ErrorString | src/main.py:52-64 | the message is one of the two strings; it is `'Invalid instance id'` iff the error is an RPC error whose details start with `invalid instance id`, or start with `The instance` and end with `not found`; non-RPC errors give the unknown message |
| Errors.ClassifiesProviderNotFound | src/main.py:57-62 | `invalid instance id: xyz` and `The instance foo was not found` are both classified as an invalid id |
| Errors.ClassificationIsStrict | src/main.py:58-61 | matching is case-sensitive, and the `not found` suffix counts only together with the `The instance` prefix |
| Router.Authorized | src/main.py:44 | a user is authorised exactly when their id occurs at some position of the whitelist |
| Router.Usage | src/main.py:103 | the usage line is `Usage: /` + the command name + ` INSTANCE_ID`, for each of the four instance commands (also lines 118, 136, 164), so it names the misused command |
| Router.NotifyText | src/main.py:190 | the notification is the warning sign, the instance id in backticks, ` was ` and the action verb, each at a fixed position |
| Router.IpStr | src/main.py:192-193 | the text is `'No external IP'` exactly when the address is empty |
| Router.IpStrRoundTrip | src/main.py:192-193 | the address is recovered from the text, so different addresses are shown differently |
| Router.NotifyEffects | src/main.py:186-190 | there is no effect exactly when no notification chat is configured; otherwise there is one MarkdownV2 message with the instance id and the verb, sent to that chat |
| Router.StartGuard | src/main.py:143-148 | start is refused exactly when the status is RUNNING or PROVISIONING |
| Router.StopGuard | src/main.py:171-176 | stop is refused exactly when the status is STOPPED or STOPPING |
| Router.StartTrackerReply | src/main.py:195-205 | the start tracker sends one MarkdownV2 message, to the requester's chat; a failed wait gives "An unknown error occured while starting" plus the id in backticks |
| Router.StopTrackerReply | src/main.py:207-213 | the stop tracker sends one MarkdownV2 message, to the requester's chat; a failed wait gives "An unknown error occured while stopping" plus the id in backticks |
| Router.Launch | src/main.py:149-156 | after the start (or stop, lines 177-184) call: first a plain reply to the requester; on failure nothing else; on success the tracker spawn for the operation and then exactly the notification sink's effects; never a remote call |
| Router.AfterFetch | src/main.py:110-184 | once the instance is fetched: a start or stop call comes first exactly when the status guard lets it through; otherwise the only effect is one plain reply to the requester; no remote call after the first effect |
| Router.CommandEffects | src/main.py:87-184 | a command has no effect exactly when the sender is not whitelisted; a leading remote call is the fetch of the argument's instance; only the second effect can be another remote call, and then it is a start or stop after a successful fetch |
| RouterProps.UnauthorizedIsSilent | src/main.py:38-49 | a sender outside the whitelist causes no effect at all, whatever the command, arguments and cloud answers |
| RouterProps.AuthorizedGetsOneReply | src/main.py:87-184 | an authorised sender whose command reaches a handler gets exactly one plain reply, and every plain reply goes to the requester's chat |
| RouterProps.RemoteCallsBounded | src/main.py:97-184 | at most two remote calls and at most one mutating call per command; `/start` and unknown commands make none |
| RouterProps.MissingArgumentOnlyUsage | src/main.py:100-104 | an instance command without an argument (status, get_ip, start_vm, stop_vm alike) only replies `Usage: /<cmd> INSTANCE_ID` and makes no remote call |
| RouterProps.FetchFailureOnlyError | src/main.py:105-109 | a failed fetch (in any instance command) is followed only by the classified error reply, with no start or stop call |
| RouterProps.StartVmRefused | src/main.py:143-148 | `start_vm` on RUNNING / PROVISIONING only replies "already running" / "already starting" after the fetch |
| RouterProps.StopVmRefused | src/main.py:171-176 | `stop_vm` on STOPPED / STOPPING only replies "already stopped" / "already stopping" after the fetch |
| RouterProps.StartCalledIff | src/main.py:130-150 | `start_vm` calls start exactly once iff authorised, an id was given, the fetch succeeded and the status is neither RUNNING nor PROVISIONING, and otherwise never; it never calls stop |
| RouterProps.StopCalledIff | src/main.py:158-178 | `stop_vm` calls stop exactly once iff authorised, an id was given, the fetch succeeded and the status is neither STOPPED nor STOPPING; it never calls start |
| RouterProps.StartVmAccepted | src/main.py:149-156 | a successful start call is followed by the "VM is starting..." reply, the start-tracker spawn and then the "started" notification, in that order, independent of the tracker's outcome |
| RouterProps.StopVmAccepted | src/main.py:177-184 | a successful stop call is followed by the "VM is stopping..." reply, the stop-tracker spawn and then the "stopped" notification |
| RouterProps.MutationFailureNoSpawn | src/main.py:149-153 | a failed start (or stop, lines 177-181) call is followed by exactly one error reply: no spawn and no notification |
| RouterProps.GetIpReplies | src/main.py:112-128 | `get_ip` replies "VM is not running" unless RUNNING, "No external IP" for a RUNNING instance without interfaces, and `IP: <addr>` for the first interface's address |
| RouterProps.StatusReplyIdentifiesStatus | src/main.py:105-110 | `/status` on a RUNNING instance replies `Status: RUNNING`, and two snapshots give the same `/status` effects exactly when their statuses are equal |
| RouterProps.StatusDependsOnlyOnStatus | src/main.py:97-110 | the `status` reply depends only on the fetched status, so asking twice about an unchanged instance gives the same reply |
| RouterProps.StartTrackerNotRunning | src/main.py:201-203 | a start that did not reach RUNNING is reported with the "failed to start or was stopped" message, the same for every such instance, with no address |
| RouterProps.StartTrackerRunning | src/main.py:204-205 | a start that reached RUNNING is confirmed with the escaped `_ip_str` of the resulting instance |
| RouterProps.StartTrackerOutcomesDistinct | src/main.py:195-205 | the wait error, the failed start and the confirmed start give three different messages |
| RouterProps.StopTrackerOutcomesDistinct | src/main.py:207-213 | a completed stop gives `Stopped` plus the id, and a failed wait gives a different message |
| BotClass.Bot.constructor | src/main.py:68-69 | the configuration is stored once and the log starts empty |
| BotClass.Bot.StartCmd | src/main.py:87-90 | appends exactly the decision table's effects for `/start` |
| BotClass.Bot.UnknownCmd | src/main.py:92-95 | appends exactly the decision table's effects for an unknown command |
| BotClass.Bot.HandleStatus | src/main.py:97-110 | appends exactly the decision table's effects for `/status` |
| BotClass.Bot.HandleGetIp | src/main.py:112-128 | appends exactly the decision table's effects for `/get_ip` |
| BotClass.Bot.StartVm | src/main.py:130-156 | appends exactly the decision table's effects for `/start_vm` |
| BotClass.Bot.StopVm | src/main.py:158-184 | appends exactly the decision table's effects for `/stop_vm` |
| BotClass.Bot.Notify | src/main.py:186-190 | appends exactly the notification sink's effects |
| BotClass.Bot.WaitForStart | src/main.py:195-205 | appends exactly the start tracker's one message for the awaited outcome |
| BotClass.Bot.WaitForStop | src/main.py:207-213 | appends exactly the stop tracker's one message for the awaited outcome |

## Left out

- Telegram plumbing is not modelled: `Updater`, handler registration and which handler a command text reaches, polling, and the message transport. A send is an entry in the effect log.
- The private-chat filter is not modelled. Every handler is registered with `Filters.chat_type.private` (src/main.py:72-77), so a command sent in a group chat reaches no handler and gets no reply, even from a whitelisted user. The model starts once a handler has been reached.
- `dispatcher.run_async` concurrency is not modelled. A spawn is a logged `Spawn` effect. A tracker's message is appended when `WaitForStart`/`WaitForStop` is called, so its order against later commands is not captured.
- The gRPC/SDK calls and the blocking wait on an operation are foreign calls. Their outcomes are inputs (`Remote`, the `waited` parameter). Operations are opaque handles.
- `escape_markdown` is a library function whose behaviour is not modelled. The bot holds it as an opaque `string -> string` constant, and the tracker function takes it as a parameter.
- Logging is not modelled (unauthorised attempts, error traces).
- Loading the configuration and key files in `main()` is file I/O and is not modelled. The bot token is not part of `Config`.
- The concrete protobuf values behind `Status` are not modelled. Every member other than the four named ones is `Other(name)`.
- An unhandled exception in `_notify` or in a send is not modelled, and neither are transport failures of the sends themselves.
