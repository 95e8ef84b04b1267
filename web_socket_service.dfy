/**
 * The keep-alive scheduler: one uniquely named pending ping request in
 * WorkManager, replaced on every enqueue, and the worker's shared channel
 * reference. Every operation swallows WorkManager's exceptions.
 */
module WebSocketService {
  import opened Wrappers
  import opened WorkQueue
  import opened WebSocketWorker

  const WorkerName := "websocket_ping_worker"
  const PingTag := "websocket_ping"
  const WorkerClass := "WebSocketWorker"

  /** The request `startWebSocketKeepAliveWorker` enqueues: immediate, needs a network, linear 20 s backoff. */
  function KeepAliveRequest(): (r: WorkRequest)
    ensures r.worker == WorkerClass && r.tags == [PingTag]
    ensures r.initialDelaySeconds == 0 && r.requiredNetwork == Connected
    ensures r.backoff == Some(BackoffCriteria(Linear, 20))
  {
    WorkRequest(WorkerClass, 0, Connected, Some(BackoffCriteria(Linear, 20)), [PingTag])
  }

  /** The request `scheduleNextPing` enqueues: 20 s delay, no constraint, default backoff. */
  function NextPingRequest(): (r: WorkRequest)
    ensures r.worker == WorkerClass && r.tags == [PingTag]
    ensures r.initialDelaySeconds == 20 && r.requiredNetwork == NotRequired
    ensures r.backoff == None
  {
    WorkRequest(WorkerClass, 20, NotRequired, None, [PingTag])
  }

  /** Calls made on the service, for the plugin's contract. */
  datatype ServiceCall = StartCall(channel: Channel) | ScheduleNextPingCall | StopCall

  /**
   * What one call does to WorkManager's unique-work table once WorkManager
   * is initialised: both enqueues replace the request under the unique
   * name, stop removes it.
   */
  function Step(work: map<string, WorkRequest>, call: ServiceCall): map<string, WorkRequest>
  {
    match call
    case StartCall(_) => work[WorkerName := KeepAliveRequest()]
    case ScheduleNextPingCall => work[WorkerName := NextPingRequest()]
    case StopCall => work - {WorkerName}
  }

  /** The table after a sequence of calls, the last one applied last. */
  function Replay(work: map<string, WorkRequest>, calls: seq<ServiceCall>): map<string, WorkRequest>
  {
    if calls == [] then work else Step(Replay(work, calls[..|calls| - 1]), calls[|calls| - 1])
  }

  /**
   * After any sequence of calls, every other unique name is exactly as it
   * was, and the unique name holds the most recent request: none after a
   * stop, the keep-alive request after a start, the delayed ping after a
   * reschedule. With no calls at all the table is unchanged.
   */
  lemma {:induction false} ReplayLastCallWins(work: map<string, WorkRequest>, calls: seq<ServiceCall>)
    ensures forall name :: name != WorkerName ==>
              (name in Replay(work, calls) <==> name in work)
              && (name in work ==> Replay(work, calls)[name] == work[name])
    ensures calls == [] ==> Replay(work, calls) == work
    ensures calls != [] ==>
              match calls[|calls| - 1]
              case StopCall => WorkerName !in Replay(work, calls)
              case StartCall(_) => WorkerName in Replay(work, calls) && Replay(work, calls)[WorkerName] == KeepAliveRequest()
              case ScheduleNextPingCall => WorkerName in Replay(work, calls) && Replay(work, calls)[WorkerName] == NextPingRequest()
  {
    if calls != [] {
      ReplayLastCallWins(work, calls[..|calls| - 1]);
    }
  }

  class WebSocketService {
    const workManager: WorkManager
    /** The worker's companion object, shared by the whole process. */
    const worker: WebSocketWorker
    ghost var calls: seq<ServiceCall>

    constructor (workManager: WorkManager, worker: WebSocketWorker)
      ensures this.workManager == workManager && this.worker == worker && calls == []
    {
      this.workManager := workManager;
      this.worker := worker;
      calls := [];
    }

    /** The new state after `startWebSocketKeepAliveWorker(channel)`. */
    twostate predicate Started(channel: Channel)
      reads this, workManager, worker
    {
      && worker.methodChannel == Some(channel)
      && workManager.initialized == old(workManager.initialized)
      && workManager.uniqueWork == (if old(workManager.initialized)
                                    then Step(old(workManager.uniqueWork), StartCall(channel))
                                    else old(workManager.uniqueWork))
      && calls == old(calls) + [StartCall(channel)]
    }

    /** The new state after `scheduleNextPing()`. */
    twostate predicate ScheduledNextPing()
      reads this, workManager, worker
    {
      && worker.methodChannel == old(worker.methodChannel)
      && workManager.initialized == old(workManager.initialized)
      && workManager.uniqueWork == (if old(workManager.initialized)
                                    then Step(old(workManager.uniqueWork), ScheduleNextPingCall)
                                    else old(workManager.uniqueWork))
      && calls == old(calls) + [ScheduleNextPingCall]
    }

    /**
     * The new state after `stopWebSocketKeepAliveWorker()`: the cancel comes
     * first, so when it throws the channel is not cleared either.
     */
    twostate predicate Stopped()
      reads this, workManager, worker
    {
      && workManager.initialized == old(workManager.initialized)
      && (old(workManager.initialized) ==>
            workManager.uniqueWork == Step(old(workManager.uniqueWork), StopCall) && worker.methodChannel == None)
      && (!old(workManager.initialized) ==>
            workManager.uniqueWork == old(workManager.uniqueWork) && worker.methodChannel == old(worker.methodChannel))
      && calls == old(calls) + [StopCall]
    }

    method StartWebSocketKeepAliveWorker(channel: Channel)
      modifies this, workManager, worker
      ensures Started(channel)
    {
      worker.SetMethodChannel(Some(channel));
      var ok := workManager.EnqueueUniqueWork(WorkerName, KeepAliveRequest());
      calls := calls + [StartCall(channel)];
    }

    method ScheduleNextPing()
      modifies this, workManager
      ensures ScheduledNextPing()
    {
      var ok := workManager.EnqueueUniqueWork(WorkerName, NextPingRequest());
      calls := calls + [ScheduleNextPingCall];
    }

    method StopWebSocketKeepAliveWorker()
      modifies this, workManager, worker
      ensures Stopped()
    {
      var ok := workManager.CancelUniqueWork(WorkerName);
      if ok {
        worker.SetMethodChannel(None);
      }
      calls := calls + [StopCall];
    }
  }

  /** Start then stop leaves no pending ping and no channel for the worker. */
  method StartThenStop(service: WebSocketService, channel: Channel)
    requires service.workManager.initialized
    modifies service, service.workManager, service.worker
    ensures WorkerName !in service.workManager.uniqueWork
    ensures service.worker.methodChannel == None
  {
    service.StartWebSocketKeepAliveWorker(channel);
    service.StopWebSocketKeepAliveWorker();
  }

  /**
   * Start, then two rescheduled pings: exactly one request is pending under
   * the unique name, and it is the last one enqueued.
   */
  method StartThenTwoPings(service: WebSocketService, channel: Channel)
    requires service.workManager.initialized
    modifies service, service.workManager, service.worker
    ensures service.workManager.uniqueWork.Keys == old(service.workManager.uniqueWork.Keys) + {WorkerName}
    ensures service.workManager.uniqueWork[WorkerName] == NextPingRequest()
    ensures service.worker.methodChannel == Some(channel)
  {
    service.StartWebSocketKeepAliveWorker(channel);
    assert service.workManager.uniqueWork[WorkerName] == KeepAliveRequest();
    service.ScheduleNextPing();
    service.ScheduleNextPing();
  }
}
