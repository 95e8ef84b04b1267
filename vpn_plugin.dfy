/**
 * The VPN plugin: the session lifecycle controller of the app. It owns the
 * run state, the bound service handle, the start options, the last
 * foreground text pushed to the handle, the 1-second foreground timer job
 * and the set of reachable networks.
 *
 * Each handler is one atomic method: the run lock only serialises whole
 * operations. The ghost `trace` records, in order, the permission and bind
 * requests, `start`, `stop` and `startForeground` on the handle, the
 * try-destroy check, the timer job's launch and cancellation, the UI
 * channel's "started", foreground-params and "dnsChanged" calls, the network
 * callback's registration and unregistration, and the exception an unknown
 * binder raises. `protect` and the lookups behind `resolveDns` and
 * `resolverProcess` are not recorded: their answers are inputs.
 */
module VpnPlugin {
  import opened Wrappers
  import opened NetworkMonitor

  datatype RunState = Start | Stop

  /** The two service variants a handle can be bound to. */
  datatype ServiceKind = PlainService | VpnService

  /** The binder `onServiceConnected` receives. */
  datatype Binder = VpnBinder | PlainBinder | UnknownBinder

  /** Start options: `enable` asks for the tunnel; the rest is opaque here. */
  datatype VpnOptions = VpnOptions(enable: bool, settings: string)

  datatype StartForegroundParams = StartForegroundParams(title: string, content: string)

  /** What the plugin does that others observe: its outgoing calls, and the exception an unknown binder raises. */
  datatype Event =
    | VpnPermissionRequested
    | BindRequested(target: ServiceKind)
    | ServiceStartCalled(options: VpnOptions)
    | StartedNotified(fd: int)
    | TimerLaunched(job: nat)
    | TimerCancelled(job: nat)
    | ServiceStopCalled
    | TryDestroyCalled
    | ForegroundParamsRequested
    | ForegroundPushed(title: string, content: string)
    | DnsChanged(servers: string)
    | NetworkCallbackRegistered
    | NetworkCallbackUnregistered
    | InvalidBinderThrown

  /** The service `bindService` targets. */
  function BindTarget(options: VpnOptions): ServiceKind
  {
    if options.enable then VpnService else PlainService
  }

  /**
   * What the handle's `start(options)` returns: the tunnel descriptor
   * `tunFd` (decided by the VPN service) or 0 for the plain service.
   */
  function StartDescriptor(kind: ServiceKind, tunFd: int): int
  {
    if kind == VpnService then tunFd else 0
  }

  function ServiceOf(binder: Binder): ServiceKind
    requires binder != UnknownBinder
  {
    if binder == VpnBinder then VpnService else PlainService
  }

  class VpnPlugin {
    var runState: RunState
    var errorXService: Option<ServiceKind>
    var options: Option<VpnOptions>
    var lastStartForegroundParams: Option<StartForegroundParams>
    var timerJob: Option<nat>
    /** Identity of the next timer job to be launched. */
    var nextJobId: nat
    var networks: seq<Network>
    ghost var trace: seq<Event>

    /** The timer runs exactly while the state is START; the network set has no repeats. */
    ghost predicate Valid()
      reads this
    {
      && (timerJob.Some? <==> runState == Start)
      && (timerJob.Some? ==> timerJob.value < nextJobId)
      && NoDuplicates(networks)
    }

    constructor ()
      ensures Valid()
      ensures runState == Stop && errorXService == None && options == None
      ensures lastStartForegroundParams == None && timerJob == None && nextJobId == 0
      ensures networks == [] && trace == []
    {
      runState := Stop;
      errorXService := None;
      options := None;
      lastStartForegroundParams := None;
      timerJob := None;
      nextJobId := 0;
      networks := [];
      trace := [];
    }

    /**
     * The effect of `handleStartService` from the state before the call:
     * with no handle it only asks for a bind; with one it starts the
     * session unless it is already started.
     */
    twostate predicate StartServiceStep(tunFd: int)
      reads this
      requires options.Some?
    {
      && errorXService == old(errorXService)
      && lastStartForegroundParams == old(lastStartForegroundParams)
      && networks == old(networks)
      && (old(errorXService).None? ==>
            && runState == old(runState) && timerJob == old(timerJob) && nextJobId == old(nextJobId)
            && trace == old(trace) + [BindRequested(BindTarget(options.value))])
      && (old(errorXService).Some? ==> StartedOnce(tunFd))
    }

    /** The locked part of `handleStartService`, with a handle bound: start once, or do nothing. */
    twostate predicate StartedOnce(tunFd: int)
      reads this
      requires options.Some? && errorXService.Some?
    {
      && (old(runState) == Start ==>
            runState == Start && timerJob == old(timerJob) && nextJobId == old(nextJobId) && trace == old(trace))
      && (old(runState) == Stop ==>
            && runState == Start
            && timerJob == Some(old(nextJobId)) && nextJobId == old(nextJobId) + 1
            && trace == old(trace) + [ServiceStartCalled(options.value),
                                      StartedNotified(StartDescriptor(errorXService.value, tunFd)),
                                      TimerLaunched(old(nextJobId))])
    }

    /**
     * The "start" command: store the options and answer true. The tunnel
     * variant only asks for the VPN permission; the service is started
     * by the permission callback (OnVpnPermissionGranted).
     */
    method HandleStart(opts: VpnOptions, tunFd: int) returns (accepted: bool)
      requires Valid()
      modifies this
      ensures Valid()
      ensures accepted && options == Some(opts)
      ensures opts.enable ==>
                && runState == old(runState) && errorXService == old(errorXService)
                && timerJob == old(timerJob) && nextJobId == old(nextJobId)
                && lastStartForegroundParams == old(lastStartForegroundParams) && networks == old(networks)
                && trace == old(trace) + [VpnPermissionRequested]
      ensures !opts.enable ==> StartServiceStep(tunFd)
    {
      options := Some(opts);
      if opts.enable {
        HandleStartVpn();
      } else {
        HandleStartService(tunFd);
      }
      accepted := true;
    }

    method HandleStartVpn()
      modifies this`trace
      ensures trace == old(trace) + [VpnPermissionRequested]
    {
      trace := trace + [VpnPermissionRequested];
    }

    /** The permission callback: runs only when the user grants the VPN permission. */
    method OnVpnPermissionGranted(tunFd: int)
      requires Valid() && options.Some?
      modifies this
      ensures Valid() && options == old(options)
      ensures StartServiceStep(tunFd)
    {
      HandleStartService(tunFd);
    }

    method HandleStartService(tunFd: int)
      requires Valid() && options.Some?
      modifies this
      ensures Valid() && options == old(options)
      ensures StartServiceStep(tunFd)
    {
      if errorXService.None? {
        BindService();
        return;
      }
      StartLocked(tunFd);
    }

    /** The body of `handleStartService` under the run lock. */
    method StartLocked(tunFd: int)
      requires Valid() && options.Some? && errorXService.Some?
      modifies this`runState, this`timerJob, this`nextJobId, this`trace
      ensures Valid()
      ensures StartedOnce(tunFd)
    {
      if runState == Start {
        return;
      }
      runState := Start;
      var fd := StartDescriptor(errorXService.value, tunFd);
      trace := trace + [ServiceStartCalled(options.value), StartedNotified(fd)];
      StartForegroundJob();
    }

    /** The bind target is the VPN service exactly when the options enable the tunnel. */
    method BindService()
      requires options.Some?
      modifies this`trace
      ensures trace == old(trace) + [BindRequested(BindTarget(options.value))]
    {
      trace := trace + [BindRequested(BindTarget(options.value))];
    }

    method StartForegroundJob()
      modifies this`timerJob, this`nextJobId, this`trace
      ensures timerJob == Some(old(nextJobId)) && nextJobId == old(nextJobId) + 1
      ensures trace == old(trace) + [TimerLaunched(old(nextJobId))]
    {
      timerJob := Some(nextJobId);
      trace := trace + [TimerLaunched(nextJobId)];
      nextJobId := nextJobId + 1;
    }

    /** Cancels the timer job if there is one; a second call does nothing more. */
    method StopForegroundJob()
      modifies this`timerJob, this`trace
      ensures timerJob == None
      ensures trace == old(trace) + (if old(timerJob).Some? then [TimerCancelled(old(timerJob).value)] else [])
    {
      if timerJob.Some? {
        trace := trace + [TimerCancelled(timerJob.value)];
      }
      timerJob := None;
    }

    /** The "stop" command: a no-op when stopped; otherwise stop the timer, the service, and try to tear down. */
    method HandleStop()
      requires Valid()
      modifies this
      ensures Valid()
      ensures old(runState) == Stop ==> unchanged(this)
      ensures old(runState) == Start ==>
                && runState == Stop && timerJob == None
                && errorXService == old(errorXService) && options == old(options) && nextJobId == old(nextJobId)
                && lastStartForegroundParams == old(lastStartForegroundParams) && networks == old(networks)
                && trace == old(trace) + [TimerCancelled(old(timerJob).value)]
                                       + (if old(errorXService).Some? then [ServiceStopCalled] else [])
                                       + [TryDestroyCalled]
    {
      if runState == Stop {
        return;
      }
      runState := Stop;
      StopForegroundJob();
      if errorXService.Some? {
        trace := trace + [ServiceStopCalled];
      }
      trace := trace + [TryDestroyCalled];
    }

    /** The bind completed: store the handle and take the start path again. */
    method OnServiceConnected(binder: Binder, tunFd: int)
      requires Valid() && options.Some?
      modifies this
      ensures Valid() && options == old(options)
      ensures binder == UnknownBinder ==>
                && runState == old(runState) && errorXService == old(errorXService)
                && timerJob == old(timerJob) && nextJobId == old(nextJobId)
                && lastStartForegroundParams == old(lastStartForegroundParams) && networks == old(networks)
                && trace == old(trace) + [InvalidBinderThrown]
      ensures binder != UnknownBinder ==>
                && errorXService == Some(ServiceOf(binder))
                && lastStartForegroundParams == old(lastStartForegroundParams) && networks == old(networks)
                && StartedOnce(tunFd)
    {
      if binder == UnknownBinder {
        trace := trace + [InvalidBinderThrown];
        return;
      }
      errorXService := Some(ServiceOf(binder));
      HandleStartService(tunFd);
    }

    /** The bound service went away: forget the handle, nothing else. */
    method OnServiceDisconnected()
      requires Valid()
      modifies this`errorXService
      ensures Valid() && errorXService == None
    {
      errorXService := None;
    }

    /**
     * One tick of the foreground timer. `fetched` is what the UI layer
     * answers to "getStartForegroundParams"; it is asked only while started,
     * and the handle gets the text only when it differs from the last one.
     */
    method Tick(fetched: StartForegroundParams)
      requires Valid()
      modifies this`lastStartForegroundParams, this`trace
      ensures Valid()
      ensures runState != Start ==> unchanged(this)
      ensures runState == Start ==>
                && lastStartForegroundParams == Some(fetched)
                && trace == old(trace) + [ForegroundParamsRequested]
                     + (if old(lastStartForegroundParams) != Some(fetched) && errorXService.Some?
                        then [ForegroundPushed(fetched.title, fetched.content)] else [])
    {
      if runState != Start {
        return;
      }
      trace := trace + [ForegroundParamsRequested];
      if lastStartForegroundParams != Some(fetched) {
        lastStartForegroundParams := Some(fetched);
        if errorXService.Some? {
          trace := trace + [ForegroundPushed(fetched.title, fetched.content)];
        }
      }
    }

    /** The "setProtect" command: true only for a descriptor on the VPN service whose `protect` does not throw. */
    method SetProtect(fd: Option<int>, protectThrows: bool) returns (reply: bool)
      ensures reply <==> fd.Some? && errorXService == Some(VpnService) && !protectThrows
    {
      if fd.Some? && errorXService == Some(VpnService) {
        reply := !protectThrows;
      } else {
        reply := false;
      }
    }

    /** Report the DNS aggregate of the current networks to the UI layer. */
    method OnUpdateNetwork(dnsOf: Network -> seq<string>)
      modifies this`trace
      ensures trace == old(trace) + [DnsChanged(DnsAggregate(networks, dnsOf))]
    {
      var dns := DnsAggregate(networks, dnsOf);
      trace := trace + [DnsChanged(dns)];
    }

    method OnAvailable(network: Network, dnsOf: Network -> seq<string>)
      requires Valid()
      modifies this`networks, this`trace
      ensures Valid()
      ensures networks == AddNetwork(old(networks), network)
      ensures trace == old(trace) + [DnsChanged(DnsAggregate(networks, dnsOf))]
    {
      networks := AddNetwork(networks, network);
      OnUpdateNetwork(dnsOf);
    }

    method OnLost(network: Network, dnsOf: Network -> seq<string>)
      requires Valid()
      modifies this`networks, this`trace
      ensures Valid()
      ensures networks == RemoveNetwork(old(networks), network)
      ensures trace == old(trace) + [DnsChanged(DnsAggregate(networks, dnsOf))]
    {
      networks := RemoveNetwork(networks, network);
      OnUpdateNetwork(dnsOf);
    }

    /**
     * Registration clears the set, then registers the callback when the
     * connectivity service exists; it reports nothing yet.
     */
    method RegisterNetworkCallback(hasConnectivity: bool)
      requires Valid()
      modifies this`networks, this`trace
      ensures Valid() && networks == []
      ensures trace == old(trace) + (if hasConnectivity then [NetworkCallbackRegistered] else [])
    {
      networks := [];
      if hasConnectivity {
        trace := trace + [NetworkCallbackRegistered];
      }
    }

    /**
     * Unregistration unregisters the callback when the connectivity service
     * exists, then clears the set and reports the empty aggregate once.
     */
    method UnRegisterNetworkCallback(hasConnectivity: bool, dnsOf: Network -> seq<string>)
      requires Valid()
      modifies this`networks, this`trace
      ensures Valid() && networks == []
      ensures trace == old(trace) + (if hasConnectivity then [NetworkCallbackUnregistered] else []) + [DnsChanged("")]
    {
      if hasConnectivity {
        trace := trace + [NetworkCallbackUnregistered];
      }
      networks := [];
      OnUpdateNetwork(dnsOf);
    }
  }

  /**
   * A plain (non-tunnel) session: the first start binds, the connection
   * starts it with descriptor 0, a second start changes nothing, equal
   * foreground text is pushed once, and after stop a tick pushes nothing.
   */
  method PlainSessionScenario(settings: string, text: StartForegroundParams) returns (p: VpnPlugin)
    ensures p.Valid() && p.runState == Stop && p.timerJob == None
    ensures p.trace == [
      BindRequested(PlainService),
      ServiceStartCalled(VpnOptions(false, settings)),
      StartedNotified(0),
      TimerLaunched(0),
      ForegroundParamsRequested,
      ForegroundPushed(text.title, text.content),
      ForegroundParamsRequested,
      TimerCancelled(0),
      ServiceStopCalled,
      TryDestroyCalled]
  {
    var opts := VpnOptions(false, settings);
    p := new VpnPlugin();
    var accepted := p.HandleStart(opts, 7);
    assert p.trace == [BindRequested(PlainService)];
    p.OnServiceConnected(PlainBinder, 7);
    accepted := p.HandleStart(opts, 7);
    assert p.runState == Start && p.timerJob == Some(0) && p.lastStartForegroundParams == None;
    p.Tick(text);
    p.Tick(text);
    p.HandleStop();
    p.Tick(text);
  }
}
