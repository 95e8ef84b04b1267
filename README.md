# ErrorX: session controller, keep-alive scheduler and release notes

This is a Dafny model of the parts of ErrorX that hold logic and not only
platform glue. There are three pieces.

- **The VPN plugin** (`VpnPlugin.kt`) controls the session lifecycle.
  - It keeps a two-state run state (`START`/`STOP`) and a handle to the
    bound service. The handle is the plain service or the tunnelling VPN
    service.
  - It runs a 1-second foreground timer. Each tick pushes the notification
    text to the handle only when the text changed.
  - It answers `setProtect` and `resolverProcess`, which finds the package
    that owns a connection.
  - It keeps the set of reachable networks and reports their combined DNS
    servers to the UI layer after every change.
- **The WebSocket keep-alive scheduler** (`WebSocketService.kt`,
  `WebSocketWorker.kt`, `WebSocketPlugin.kt`).
  - WorkManager holds at most one pending ping request under the unique
    name `websocket_ping_worker`. Every enqueue replaces it.
  - The worker pings the UI layer through a shared channel reference, which
    stop clears.
  - A method-call handler maps the UI layer's commands onto the scheduler.
- **The release announcers** (`release_discord.py`, `release_telegram.py`).
  They build a Discord embed and a Telegram message from the release tag
  and the release-notes file. A tag without `-` is a stable release.
  Bullet lines `- ` become `💫 `. The Discord notes are cut into
  1024-character fields.

Modules:

| file | module | what it holds |
|---|---|---|
| `wrappers.dfy` | `Wrappers` | `Option` |
| `text.dfy` | `Text` | Python's `str.split`, `str.join` and `str.strip`, with round-trip lemmas |
| `network_monitor.dfy` | `NetworkMonitor` | the network set and the DNS aggregate (`flatMap`, `toSet`, `joinToString`) |
| `owner_resolver.dfy` | `OwnerResolver` | the `resolverProcess` decision chain |
| `vpn_plugin.dfy` | `VpnPlugin` | class `VpnPlugin`: run state, handle, options, last foreground text, timer job, networks |
| `work_manager.dfy` | `WorkQueue` | WorkManager as a map from unique name to pending request |
| `web_socket_worker.dfy` | `WebSocketWorker` | the worker's shared channel reference and `doWork` |
| `web_socket_service.dfy` | `WebSocketService` | start, reschedule and stop of the keep-alive ping |
| `web_socket_plugin.dfy` | `WebSocketPlugin` | registration and the `onMethodCall` dispatch table |
| `release_notes.dfy` | `ReleaseNotes` | what both scripts share: the stable test, the bullet rewrite, chunking |
| `release_discord.dfy` | `ReleaseDiscord` | `create_embed` |
| `release_telegram.dfy` | `ReleaseTelegram` | `create_message` |

The VPN plugin records a ghost `trace` of its outgoing calls, in the
order it makes them. These are the VPN permission request, the bind
request, `start`, `stop` and `startForeground(title, content)` on the bound
service, the try-destroy check, the timer job's launch and cancellation,
the UI channel's "started", foreground-params and "dnsChanged" calls, and
the registration and unregistration of the network callback. The trace
also records one event that is not a call: the exception an unknown binder
raises in `onServiceConnected`. It does not record `protect` on the
handle, or the platform lookups behind `resolveDns` and `resolverProcess`:
these are inputs to the members that use them. The keep-alive service
keeps a ghost `calls` list of the calls made on it (start, schedule-next,
stop), which `ReplayLastCallWins` replays.

Platform answers are inputs:
- the descriptor the VPN service returns from `start` is `tunFd`;
- the DNS servers of a network are `dnsOf`;
- whether the connectivity service exists when the network callback is registered or unregistered is `hasConnectivity`;
- the platform calls behind `resolverProcess` are the `Environment`;
- whether `protect` or `invokeMethod` throws is a `bool` parameter;
- whether WorkManager is initialised is the flag `WorkManager.initialized`.
  `getInstance` throws while it is false.

## Model

| member | source | states |
|---|---|---|
| VpnPlugin.VpnPlugin.constructor | android/app/src/main/kotlin/net/errorx/vpn/plugins/VpnPlugin.kt:40-46 | The plugin starts stopped: no handle, no options, no last foreground text, no timer job, no networks. |
| VpnPlugin.VpnPlugin.HandleStart | android/app/src/main/kotlin/net/errorx/vpn/plugins/VpnPlugin.kt:155-162 | Stores the options and answers true either way. With `enable` it only asks for the VPN permission and changes nothing else. Without it, it takes the start-service step. |
| VpnPlugin.VpnPlugin.HandleStartVpn | android/app/src/main/kotlin/net/errorx/vpn/plugins/VpnPlugin.kt:164-169 | Only the permission request leaves the plugin; the service is not started here. |
| VpnPlugin.VpnPlugin.OnVpnPermissionGranted | android/app/src/main/kotlin/net/errorx/vpn/plugins/VpnPlugin.kt:166-168 | The permission callback takes the start-service step with the stored options. |
| VpnPlugin.VpnPlugin.HandleStartService | android/app/src/main/kotlin/net/errorx/vpn/plugins/VpnPlugin.kt:251-265 | With no handle it only requests a bind; run state, timer and trace are otherwise untouched. With a handle it starts the session at most once. |
| VpnPlugin.VpnPlugin.StartLocked | android/app/src/main/kotlin/net/errorx/vpn/plugins/VpnPlugin.kt:256-264 | Start is idempotent: when already started nothing changes. From STOP it sets START, then calls `start(options)` once, then reports "started" with the handle's descriptor (0 for the plain service), then launches a new timer job. The timer runs exactly while started. |
| VpnPlugin.VpnPlugin.BindService | android/app/src/main/kotlin/net/errorx/vpn/plugins/VpnPlugin.kt:277-283 | The bind targets the VPN service exactly when the options enable the tunnel. |
| VpnPlugin.VpnPlugin.StartForegroundJob | android/app/src/main/kotlin/net/errorx/vpn/plugins/VpnPlugin.kt:237-244 | A new, never used job becomes the timer job. |
| VpnPlugin.VpnPlugin.StopForegroundJob | android/app/src/main/kotlin/net/errorx/vpn/plugins/VpnPlugin.kt:246-249 | Cancels the job if there is one and leaves no job; a second call cancels nothing. |
| VpnPlugin.VpnPlugin.HandleStop | android/app/src/main/kotlin/net/errorx/vpn/plugins/VpnPlugin.kt:267-275 | Stop is idempotent: when stopped nothing changes. Otherwise it sets STOP, cancels the timer and leaves none, calls `stop()` on the handle if one is bound, then tries to destroy. |
| VpnPlugin.VpnPlugin.OnServiceConnected | android/app/src/main/kotlin/net/errorx/vpn/plugins/VpnPlugin.kt:53-60 | An unknown binder throws and changes nothing. A known binder becomes the handle of its kind, and the start path runs again, starting the session at most once. |
| VpnPlugin.VpnPlugin.OnServiceDisconnected | android/app/src/main/kotlin/net/errorx/vpn/plugins/VpnPlugin.kt:62-64 | Only the handle is cleared. |
| VpnPlugin.VpnPlugin.Tick | android/app/src/main/kotlin/net/errorx/vpn/plugins/VpnPlugin.kt:217-235 | Does nothing unless started. When started it asks for the params and records them. It pushes them to the handle only when they differ from the last ones, so two equal fetches give one push. |
| VpnPlugin.VpnPlugin.SetProtect | android/app/src/main/kotlin/net/errorx/vpn/plugins/VpnPlugin.kt:93-105 | True exactly when a descriptor is given, the handle is the VPN service and `protect` does not throw. |
| VpnPlugin.VpnPlugin.OnUpdateNetwork | android/app/src/main/kotlin/net/errorx/vpn/plugins/VpnPlugin.kt:177-186 | Reports the DNS aggregate of the current networks once. |
| VpnPlugin.VpnPlugin.OnAvailable | android/app/src/main/kotlin/net/errorx/vpn/plugins/VpnPlugin.kt:189-192 | Adds the network to the set, then reports the new aggregate. |
| VpnPlugin.VpnPlugin.OnLost | android/app/src/main/kotlin/net/errorx/vpn/plugins/VpnPlugin.kt:194-197 | Removes the network from the set, then reports the new aggregate. |
| VpnPlugin.VpnPlugin.RegisterNetworkCallback | android/app/src/main/kotlin/net/errorx/vpn/plugins/VpnPlugin.kt:206-209 | Clears the set, then registers the callback when the connectivity service exists. Nothing is reported. |
| VpnPlugin.VpnPlugin.UnRegisterNetworkCallback | android/app/src/main/kotlin/net/errorx/vpn/plugins/VpnPlugin.kt:211-215 | Unregisters the callback when the connectivity service exists, then clears the set and reports the empty aggregate `""` once. |
| VpnPlugin.PlainSessionScenario | android/app/src/main/kotlin/net/errorx/vpn/plugins/VpnPlugin.kt:155-275 | A whole plain session gives exactly this trace: bind, start, "started" with 0, timer 0, one push for two equal ticks, cancel, stop, try-destroy. A second start adds nothing, and a tick after stop adds nothing. |
| NetworkMonitor.AddNetwork | android/app/src/main/kotlin/net/errorx/vpn/plugins/VpnPlugin.kt:190 | Set insertion keeping insertion order: the old networks stay first and are kept in order, the new one is added once, and there are no repeats. |
| NetworkMonitor.RemoveNetwork | android/app/src/main/kotlin/net/errorx/vpn/plugins/VpnPlugin.kt:195 | Set removal: exactly the other networks remain, and the size drops by one only if the network was there. A present network is cut out where it stands and the others keep their order; an absent one leaves the set as it was. |
| NetworkMonitor.FlatDnsMembers | android/app/src/main/kotlin/net/errorx/vpn/plugins/VpnPlugin.kt:178-179 | A server is in the flattened list exactly when some network in the set lists it. |
| NetworkMonitor.FlatDnsConcat | android/app/src/main/kotlin/net/errorx/vpn/plugins/VpnPlugin.kt:178-179 | `flatMap` goes network by network: flattening two lists of networks one after the other gives the first list's servers, then the second's. |
| NetworkMonitor.AddNetworkServersLast | android/app/src/main/kotlin/net/errorx/vpn/plugins/VpnPlugin.kt:178-190 | A new network's servers come after those of all networks already in the set. Adding a known network changes nothing. |
| NetworkMonitor.RemoveNetworkCutsServers | android/app/src/main/kotlin/net/errorx/vpn/plugins/VpnPlugin.kt:178-195 | Losing a network cuts exactly its servers out of the flattened list. The servers before and after it stay, in order. |
| NetworkMonitor.Dedup | android/app/src/main/kotlin/net/errorx/vpn/plugins/VpnPlugin.kt:180 | `toSet()` has no repeats and holds exactly the input's elements. |
| NetworkMonitor.DedupFirstOccurrenceOrder | android/app/src/main/kotlin/net/errorx/vpn/plugins/VpnPlugin.kt:180 | `toSet()` keeps first-occurrence order: earlier elements of the result first occur earlier in the input. |
| NetworkMonitor.FirstIndexExtend | android/app/src/main/kotlin/net/errorx/vpn/plugins/VpnPlugin.kt:180 | Appending to a list does not move the first occurrence of an element already in it. |
| NetworkMonitor.DnsAggregate | android/app/src/main/kotlin/net/errorx/vpn/plugins/VpnPlugin.kt:177-180 | With no servers (in particular with no networks) the aggregate is the empty string. Otherwise every server of every network in the set occurs in it. |
| NetworkMonitor.DnsAggregateServers | android/app/src/main/kotlin/net/errorx/vpn/plugins/VpnPlugin.kt:177-180 | When servers are non-empty and comma-free and at least one is reported, splitting the aggregate on `,` gives the networks' DNS lists concatenated in the set's insertion order with each server kept at its first occurrence, so each server appears exactly once. |
| NetworkMonitor.TwoNetworksScenario | android/app/src/main/kotlin/net/errorx/vpn/plugins/VpnPlugin.kt:177-197 | Network A with 1.1.1.1 arrives, then B with 8.8.8.8, then A is lost. The aggregates are "1.1.1.1", "1.1.1.1,8.8.8.8" and "8.8.8.8". |
| OwnerResolver.DestinationAddress | android/app/src/main/kotlin/net/errorx/vpn/plugins/VpnPlugin.kt:129-132 | The destination port is `destinationPort`. The destination host is `host` when `destinationIP` is empty, and `destinationIP` otherwise. |
| OwnerResolver.OwnerUid | android/app/src/main/kotlin/net/errorx/vpn/plugins/VpnPlugin.kt:133-141 | A uid is kept exactly when the lookup returns without throwing, the uid is not null and it is not -1. A kept uid is the one the lookup returned. |
| OwnerResolver.ResolveOwner | android/app/src/main/kotlin/net/errorx/vpn/plugins/VpnPlugin.kt:107-147 | Null when any of these is missing: metadata, a known protocol, SDK >= Q, a uid lookup that does not throw, a non-null uid other than -1. A package name is only ever the first package of such a valid uid for this connection. Conversely, with metadata, a protocol, SDK >= Q and valid ports, a valid uid with a non-empty package list gives its first package, and a valid uid with no package list gives null. No answer comes exactly when a port is out of range or `first()` is given an empty package list. |
| WorkQueue.WorkManager.constructor | android/app/src/main/kotlin/net/errorx/vpn/services/WebSocketService.kt:48 | A WorkManager starts with no unique work pending. `getInstance` throws until it is initialised. |
| WorkQueue.WorkManager.EnqueueUniqueWork | android/app/src/main/kotlin/net/errorx/vpn/services/WebSocketService.kt:48-53 | REPLACE: the request becomes the only one pending under its name, and other names are untouched. Nothing changes when `getInstance` throws. |
| WorkQueue.WorkManager.CancelUniqueWork | android/app/src/main/kotlin/net/errorx/vpn/services/WebSocketService.kt:92-93 | Removes the name's pending request; a name with nothing pending leaves the table as it was. |
| WebSocketWorker.WebSocketWorker.constructor | android/app/src/main/kotlin/net/errorx/vpn/services/WebSocketWorker.kt:22 | The shared channel reference starts null. |
| WebSocketWorker.WebSocketWorker.SetMethodChannel | android/app/src/main/kotlin/net/errorx/vpn/services/WebSocketWorker.kt:25-27 | Later runs see the given channel, or none after null. |
| WebSocketWorker.WebSocketWorker.DoWork | android/app/src/main/kotlin/net/errorx/vpn/services/WebSocketWorker.kt:30-51 | `keepWebSocketAlive` is invoked exactly once when a channel is set and never otherwise. The result is retry exactly when a channel is set and the invoke throws, and success otherwise, including with no channel. |
| WebSocketService.KeepAliveRequest | android/app/src/main/kotlin/net/errorx/vpn/services/WebSocketService.kt:30-45 | The keep-alive request runs `WebSocketWorker`, tagged `websocket_ping`. It starts at once, needs a connected network and backs off linearly by 20 s. |
| WebSocketService.NextPingRequest | android/app/src/main/kotlin/net/errorx/vpn/services/WebSocketService.kt:67-70 | The next-ping request runs `WebSocketWorker`, tagged `websocket_ping`. It waits 20 s, needs no network and leaves the default backoff. |
| WebSocketService.WebSocketService.constructor | android/app/src/main/kotlin/net/errorx/vpn/services/WebSocketService.kt:12 | A new service uses the given WorkManager and the worker's shared channel reference, and has made no calls yet. |
| WebSocketService.ReplayLastCallWins | android/app/src/main/kotlin/net/errorx/vpn/services/WebSocketService.kt:22-102 | After any sequence of start, reschedule and stop calls, other unique names are untouched. The ping name holds the most recent request: the keep-alive request after a start, the delayed ping after a reschedule, none after a stop. |
| WebSocketService.WebSocketService.StartWebSocketKeepAliveWorker | android/app/src/main/kotlin/net/errorx/vpn/services/WebSocketService.kt:22-59 | The worker sees the channel first. Then the single pending request under `websocket_ping_worker` is immediate, needs a connected network and backs off linearly by 20 s. A `getInstance` failure is swallowed. |
| WebSocketService.WebSocketService.ScheduleNextPing | android/app/src/main/kotlin/net/errorx/vpn/services/WebSocketService.kt:64-82 | The single pending request becomes a 20 s delayed ping with no constraint and no backoff set. The channel is untouched and failures are swallowed. |
| WebSocketService.WebSocketService.StopWebSocketKeepAliveWorker | android/app/src/main/kotlin/net/errorx/vpn/services/WebSocketService.kt:87-102 | Cancels the unique work, then clears the channel. When `getInstance` throws, neither happens. |
| WebSocketService.StartThenStop | android/app/src/main/kotlin/net/errorx/vpn/services/WebSocketService.kt:22-102 | Start followed by stop leaves nothing pending under the name and no channel. |
| WebSocketService.StartThenTwoPings | android/app/src/main/kotlin/net/errorx/vpn/services/WebSocketService.kt:22-82 | Start then two reschedules leaves the name pending once, holding the last request, with the channel still set. |
| WebSocketPlugin.WebSocketPlugin.constructor | android/app/src/main/kotlin/net/errorx/vpn/plugins/WebSocketPlugin.kt:28-29 | A new plugin owns a fresh service and stores no channel. |
| WebSocketPlugin.WebSocketPlugin.RegisterWith | android/app/src/main/kotlin/net/errorx/vpn/plugins/WebSocketPlugin.kt:18-25 | Registration leaves the plugin holding the channel `net.errorx.vpn/websocket`. |
| WebSocketPlugin.WebSocketPlugin.SetMethodChannel | android/app/src/main/kotlin/net/errorx/vpn/plugins/WebSocketPlugin.kt:31-33 | The plugin holds the given channel. |
| WebSocketPlugin.WebSocketPlugin.OnMethodCall | android/app/src/main/kotlin/net/errorx/vpn/plugins/WebSocketPlugin.kt:35-68 | The dispatch table. `startKeepAliveService` with no channel replies UNAVAILABLE and touches nothing; with a channel it starts the worker with it and replies true. `stopKeepAliveService` stops the worker and replies true. `scheduleNextPing` and `keepWebSocketAlive` reschedule once and reply true. Any other name replies not-implemented and touches nothing. |
| WebSocketPlugin.RegisteredStart | android/app/src/main/kotlin/net/errorx/vpn/plugins/WebSocketPlugin.kt:18-45 | After registration, a start request succeeds: the worker holds the plugin's channel and the keep-alive request is pending. |
| ReleaseNotes.IsStable | release_discord.py:8 | A release is stable exactly when no character of the tag is `-`. The same test is at release_telegram.py:6. |
| ReleaseNotes.FormatLines | release_discord.py:19-24 | One output line per input line. A line starting `- ` becomes `💫 ` and the rest of the line; any other line is unchanged. |
| ReleaseNotes.FormatNotes | release_discord.py:16-25 | Splitting the formatted notes on newlines gives back the rewritten lines of the stripped file, so the line count is kept. |
| ReleaseNotes.FormatAllKeepsLines | release_discord.py:19-24 | Rewriting bullets never adds a newline to a line. |
| ReleaseNotes.Chunks | release_discord.py:72 | Every chunk is non-empty and at most 1024 characters, and all but the last are exactly 1024. There are ceil(len/1024) chunks. |
| ReleaseNotes.ChunksConcat | release_discord.py:72 | The chunks concatenate back to exactly the notes. |
| Text.Split | release_discord.py:18 | `str.split` gives at least one part, and no part holds the separator. |
| Text.JoinSplit | release_discord.py:18-25 | Joining the split parts with the separator gives back the string. |
| Text.SplitJoin | release_discord.py:25 | Splitting the join of separator-free parts gives back the parts. |
| Text.Strip | release_discord.py:16 | `str.strip` returns a piece of the input with only whitespace before and after it in the input. The piece is empty or starts and ends with non-whitespace. |
| Text.Join | release_telegram.py:51 | Joining no parts gives the empty string. Otherwise the joined text starts with the first part. |
| Text.JoinContainsPart | release_telegram.py:51 | Every part occurs in the joined text. |
| Text.JoinEndsWithLast | release_telegram.py:51 | The joined text ends with the last part. |
| Text.JoinContainsEvery | android/app/src/main/kotlin/net/errorx/vpn/plugins/VpnPlugin.kt:180 | Every element of the joined list, such as each DNS server passed to `joinToString`, can be found in the joined text. |
| ReleaseDiscord.ReadReleaseNotes | release_discord.py:12-25 | The notes are the formatted stripped file, or empty when there is no file. |
| ReleaseDiscord.AppendChangelog | release_discord.py:70-78 | Appends one non-inline field per chunk, in order. The first is named "🎉 What's New", the rest "📝 Changelog (continued)". Their values concatenate to the notes. |
| ReleaseDiscord.ChangelogFieldsHoldChunks | release_discord.py:73-78 | Fields holding the chunks in order spell out the whole notes. |
| ReleaseDiscord.FixedFields | release_discord.py:44-68 | Three inline fields, in order: "📊 Release Status", "🔗 Quick Links" (whose value names the tag verbatim) and the blank spacer. |
| ReleaseDiscord.QuickLinksNameTag | release_discord.py:55-59 | The Quick Links value names the tag verbatim, inside the download link. |
| ReleaseDiscord.TagInLinks | release_discord.py:31 | The release URL contains the tag verbatim. |
| ReleaseDiscord.BuildEmbed | release_discord.py:27-78 | Title emoji, colour (0x58b9ff or 0xf1c40f) and footer follow the stable test. The description is fixed, and the thumbnail and footer icon are the project icon. The URL contains the tag. The three fixed fields come first, then the changelog fields that spell out the notes. |
| ReleaseDiscord.CreateEmbed | release_discord.py:11-80 | The embed for the tag and the file. With empty notes or no file there are exactly three fields. |
| ReleaseTelegram.LeadingParts | release_telegram.py:14-31 | Nine parts before the changelog: the header first, the download link seventh. |
| ReleaseTelegram.LeadingPartsAreNotHeadings | release_telegram.py:14-49 | No leading part is the "🎉 What's New" heading or the footer. |
| ReleaseTelegram.MessageParts | release_telegram.py:14-49 | The nine leading parts, then the heading and the whole formatted changelog when a release file exists, then the footer. There are 12 parts with a file and 10 without. |
| ReleaseTelegram.FormatChangelog | release_telegram.py:36-46 | The changelog part is the formatted stripped file. |
| ReleaseTelegram.CreateMessage | release_telegram.py:12-51 | The message is its part list joined with newlines. |
| ReleaseTelegram.MessagePartsShape | release_telegram.py:14-49 | The header comes first and the footer last. The "🎉 What's New" heading is present exactly when a release file exists, even an empty one. |
| ReleaseTelegram.HeaderNamesTag | release_telegram.py:17 | A text that opens with the header names the tag verbatim. |
| ReleaseTelegram.MessageContents | release_telegram.py:17-51 | The message starts with the header and ends with the footer. It contains the tag and the download link, and holds the formatted changelog unbroken, with no chunking. |

## Left out

- Coroutines, dispatchers and the run lock are not modelled. Each handler is one atomic method, and the 1-second timer loop is the `Tick` method called from outside. The loop's `delay(1000)` and `isActive` are not modelled. Nothing is said about the lock being held across the UI round-trip inside the foreground tick.
- The `onMethodCall` dispatch of the VPN plugin is not a member. Its branches are: "start" → `HandleStart`, "stop" → `HandleStop` replying true, "setProtect" → `SetProtect`, "resolverProcess" → `ResolveOwner`, anything else not-implemented.
- `onAttachedToEngine` and `onDetachedFromEngine` are not modelled. They set up the channel and scope, and call the two network-callback methods that are modelled.
- VpnPlugin.VpnPlugin.StartLocked: the handle's `start`, `stop` and `startForeground`, and the UI round-trip `awaitResult`, are assumed not to throw. In the source they may throw, and then:
  - `start` (`VpnPlugin.kt:259`) throws after the run state is already START. No "started" is sent and no timer job exists. The exception reaches whichever of the three callers ran the start: `onMethodCall`, `onServiceConnected`, or the VPN-permission callback (`VpnPlugin.kt:166-168`). So a start whose `start` call throws still leaves the run state START. Later starts do nothing, and a stop still sets STOP. `Valid()` (the timer job runs exactly while started) rules this state out, so the model cannot show it.
  - `stop` (`VpnPlugin.kt:272`) throws after STOP is set and the timer is cancelled, so `handleTryDestroy` is skipped.
  - In the tick (`VpnPlugin.kt:221-230`), a throw from `awaitResult` leaves the last params unchanged. A throw from `startForeground` comes after the new params are recorded. Either way the lock is released and the exception escapes the timer coroutine. That coroutine is launched in `CoroutineScope(Dispatchers.Main)` with no exception handler (`VpnPlugin.kt:238`). So the thread's default handler runs, which on Android ends the process. The model does not capture this.
- `requestGc` is not modelled. It only invokes "gc" on the channel (`VpnPlugin.kt:171-173`).
- Gson decoding of `VpnOptions`, `Process` and `StartForegroundParams` is not modelled. Decoded values are the inputs; `VpnOptions` keeps only `enable`, and its other settings are one opaque string.
- The platform calls are parameters or `Environment` fields: `getConnectionOwnerUid`, `resolveDns`, `getPackagesForUid`, `bindService`, `requestVpnPermission`, `handleTryDestroy` and `protect`. `net/errorx/vpn/extensions` (`getProtocol`, `resolveDns`, `awaitResult`) is not part of this model.
- `ErrorXVpnService` is not part of this model. The descriptor its `start` returns is the parameter `tunFd`. The plain service's `start` returns 0 (`ErrorXService.kt:95`).
- `GlobalState` is not part of this model. The run state lives on the plugin, starts as STOP, and the current app plugin is always present. When the user denies the VPN permission, `OnVpnPermissionGranted` is simply never called.
- OwnerResolver.ResolveOwner: `InetSocketAddress` name resolution of a host is not modelled, and only its port-range exception is. An exception escaping the coroutine is `NoReply`: the call is never answered. In the app such an exception is uncaught. `scope` has a plain job and no exception handler (`VpnPlugin.kt:68`), so the thread's default handler runs, which on Android ends the process. It also cancels `scope`, so later `dnsChanged` reports and `resolverProcess` launches would do nothing. The model does not capture the process ending or the cancelled scope.
- The keep-alive scheduler's WorkManager runs nothing. Delays, constraints and backoff are only recorded on the pending request.
- The Python scripts' I/O is not modelled: the HTTP posts, the environment-variable checks and `exit`, the file reading (the file's content, or its absence, is an input: the content is the text `f.read()` returns in text mode, after `\r\n` and `\r` have become `\n`) and `datetime.utcnow()` (the timestamp is an input).
- ReleaseDiscord.AppendChangelog: the field name at `release_discord.py:75` puts a backslash inside an f-string expression, which Python before 3.12 refuses as a syntax error. The model follows the 3.12 reading, where the name is "🎉 What's New".
- Python strings are modelled as sequences of code points. Neither script's decoding of the release file is modelled: not the `encoding='utf-8'` at `release_discord.py:15`, nor the locale's default encoding at `release_telegram.py:38`.
- Logging (`Log.d`, `Log.e`, `print`) is not modelled.
