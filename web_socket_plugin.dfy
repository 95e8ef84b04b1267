/**
 * The method-call handler of the keep-alive channel: it maps the UI
 * layer's commands onto the keep-alive scheduler.
 */
module WebSocketPlugin {
  import opened Wrappers
  import opened WorkQueue
  import WebSocketWorker
  import opened WebSocketService

  const ChannelName := "net.errorx.vpn/websocket"

  /** The answer sent back on the channel. */
  datatype Reply = Success(value: bool) | Error(code: string, message: string) | NotImplemented

  class WebSocketPlugin {
    const webSocketService: WebSocketService
    var methodChannel: Option<WebSocketWorker.Channel>

    constructor (workManager: WorkManager, worker: WebSocketWorker.WebSocketWorker)
      ensures fresh(webSocketService) && webSocketService.calls == []
      ensures webSocketService.workManager == workManager && webSocketService.worker == worker
      ensures methodChannel == None
    {
      webSocketService := new WebSocketService(workManager, worker);
      methodChannel := None;
    }

    /** Create the channel and the plugin, install the handler and keep the channel for the worker. */
    static method RegisterWith(workManager: WorkManager, worker: WebSocketWorker.WebSocketWorker) returns (plugin: WebSocketPlugin)
      ensures fresh(plugin) && fresh(plugin.webSocketService) && plugin.webSocketService.calls == []
      ensures plugin.webSocketService.workManager == workManager && plugin.webSocketService.worker == worker
      ensures plugin.methodChannel == Some(WebSocketWorker.Channel(ChannelName))
    {
      var channel := WebSocketWorker.Channel(ChannelName);
      plugin := new WebSocketPlugin(workManager, worker);
      plugin.SetMethodChannel(channel);
    }

    method SetMethodChannel(channel: WebSocketWorker.Channel)
      modifies this
      ensures methodChannel == Some(channel)
    {
      methodChannel := Some(channel);
    }

    method OnMethodCall(name: string) returns (reply: Reply)
      modifies webSocketService, webSocketService.workManager, webSocketService.worker
      ensures name == "startKeepAliveService" && methodChannel.None? ==>
                && reply == Error("UNAVAILABLE", "Method channel not initialized")
                && unchanged(webSocketService, webSocketService.workManager, webSocketService.worker)
      ensures name == "startKeepAliveService" && methodChannel.Some? ==>
                reply == Success(true) && webSocketService.Started(methodChannel.value)
      ensures name == "stopKeepAliveService" ==>
                reply == Success(true) && webSocketService.Stopped()
      ensures name == "scheduleNextPing" || name == "keepWebSocketAlive" ==>
                reply == Success(true) && webSocketService.ScheduledNextPing()
      ensures name !in {"startKeepAliveService", "stopKeepAliveService", "scheduleNextPing", "keepWebSocketAlive"} ==>
                reply == NotImplemented
                && unchanged(webSocketService, webSocketService.workManager, webSocketService.worker)
    {
      if name == "startKeepAliveService" {
        if methodChannel.Some? {
          webSocketService.StartWebSocketKeepAliveWorker(methodChannel.value);
          reply := Success(true);
        } else {
          reply := Error("UNAVAILABLE", "Method channel not initialized");
        }
      } else if name == "stopKeepAliveService" {
        webSocketService.StopWebSocketKeepAliveWorker();
        reply := Success(true);
      } else if name == "scheduleNextPing" {
        webSocketService.ScheduleNextPing();
        reply := Success(true);
      } else if name == "keepWebSocketAlive" {
        webSocketService.ScheduleNextPing();
        reply := Success(true);
      } else {
        reply := NotImplemented;
      }
    }
  }

  /** After registration, "startKeepAliveService" takes the success branch and arms the worker. */
  method RegisteredStart(workManager: WorkManager, worker: WebSocketWorker.WebSocketWorker) returns (reply: Reply)
    requires workManager.initialized
    modifies workManager, worker
    ensures reply == Success(true)
    ensures worker.methodChannel == Some(WebSocketWorker.Channel(ChannelName))
    ensures WorkerName in workManager.uniqueWork && workManager.uniqueWork[WorkerName] == KeepAliveRequest()
  {
    var plugin := WebSocketPlugin.RegisterWith(workManager, worker);
    reply := plugin.OnMethodCall("startKeepAliveService");
  }
}
