/**
 * The keep-alive worker. Its companion object holds a process-wide
 * reference to the UI method channel; each run of the worker pings the UI
 * layer through it.
 */
module WebSocketWorker {
  import opened Wrappers

  /** A Flutter method channel, known by its name. */
  datatype Channel = Channel(name: string)

  datatype WorkerResult = Success | Retry

  const KeepAliveMethod := "keepWebSocketAlive"

  /** The worker's companion object: the shared channel reference. */
  class WebSocketWorker {
    var methodChannel: Option<Channel>

    constructor ()
      ensures methodChannel == None
    {
      methodChannel := None;
    }

    method SetMethodChannel(channel: Option<Channel>)
      modifies this
      ensures methodChannel == channel
    {
      methodChannel := channel;
    }

    /**
     * One run of the worker. `invokeThrows` says whether `invokeMethod`
     * throws; `invoked` lists the methods it asks of the UI layer. A
     * missing channel is reported as success, so the chain never stalls;
     * only a failed ping asks for a retry. It enqueues no work itself.
     */
    method DoWork(invokeThrows: bool) returns (result: WorkerResult, invoked: seq<string>)
      ensures invoked == if methodChannel.Some? then [KeepAliveMethod] else []
      ensures result == Retry <==> methodChannel.Some? && invokeThrows
    {
      var channel := methodChannel;
      if channel.Some? {
        invoked := [KeepAliveMethod];
        if invokeThrows {
          return Retry, invoked;
        }
      } else {
        invoked := [];
      }
      result := Success;
    }
  }
}
