/** The call surface of the tracking library's `Leap.Controller`, as the
    element uses it. What the library does behind these calls (the WebSocket
    transport, frame decoding, gestures, plugins) is not modelled: each call
    is recorded in ghost state, and `connected()` / `streaming()` answer
    from state that only the library changes. */
module LeapController {
  import opened Js

  /** The option bag passed to `new Leap.Controller(...)`. */
  datatype ControllerOptions = ControllerOptions(
    host: string,
    port: int,
    enableGestures: bool,
    background: bool,
    optimizeHMD: JsValue,
    frameEventName: string,
    useAllPlugins: bool,
    loopWhileDisconnected: bool)

  /** One `controller.on(event, handler)` registration: the handler is the
      method named `handler` of `listener`, bound to it. */
  datatype Subscription = Subscription(event: string, listener: object, handler: string)

  class Controller {
    const options: ControllerOptions

    // Session state owned by the library; only `SessionChanged` assigns it
    // after construction.
    var isConnected: bool
    var isStreaming: bool

    ghost var connectCalls: nat
    /** For each `connect` call, in order, how many subscriptions existed
        when it was made. */
    ghost var subscribedAtConnect: seq<nat>
    ghost var disconnectCalls: nat
    /** Every value passed to `setBackground`, in order. */
    ghost var backgroundArgs: seq<bool>
    /** Every value passed to `setOptimizeHMD`, in order. */
    ghost var optimizeHmdArgs: seq<bool>
    ghost var subscriptions: seq<Subscription>

    /** No call has been made on this controller yet. */
    ghost predicate Untouched()
      reads this
    {
      connectCalls == 0 && subscribedAtConnect == [] && disconnectCalls == 0 &&
      backgroundArgs == [] && optimizeHmdArgs == [] && subscriptions == []
    }

    constructor (options: ControllerOptions)
      ensures this.options == options
      ensures Untouched()
    {
      this.options := options;
      isConnected, isStreaming := false, false;
      connectCalls, subscribedAtConnect, disconnectCalls := 0, [], 0;
      backgroundArgs, optimizeHmdArgs, subscriptions := [], [], [];
    }

    /** `controller.connected()`. */
    function Connected(): bool
      reads this
    {
      isConnected
    }

    /** `controller.streaming()`. */
    function Streaming(): bool
      reads this
    {
      isStreaming
    }

    /** The library's own transition of the session (the socket opening or
        closing, the service starting or stopping the stream), which the
        element never causes and only observes through `connected()` and
        `streaming()`. */
    method SessionChanged(conn: bool, str: bool)
      modifies this`isConnected, this`isStreaming
      ensures Connected() == conn && Streaming() == str
    {
      isConnected, isStreaming := conn, str;
    }

    method Connect()
      modifies this`connectCalls, this`subscribedAtConnect
      ensures connectCalls == old(connectCalls) + 1
      ensures subscribedAtConnect == old(subscribedAtConnect) + [|subscriptions|]
    {
      connectCalls := connectCalls + 1;
      subscribedAtConnect := subscribedAtConnect + [|subscriptions|];
    }

    method Disconnect()
      modifies this`disconnectCalls
      ensures disconnectCalls == old(disconnectCalls) + 1
    {
      disconnectCalls := disconnectCalls + 1;
    }

    method SetBackground(b: bool)
      modifies this`backgroundArgs
      ensures backgroundArgs == old(backgroundArgs) + [b]
    {
      backgroundArgs := backgroundArgs + [b];
    }

    method SetOptimizeHMD(b: bool)
      modifies this`optimizeHmdArgs
      ensures optimizeHmdArgs == old(optimizeHmdArgs) + [b]
    {
      optimizeHmdArgs := optimizeHmdArgs + [b];
    }

    /** `controller.on(event, handler)`: adds a subscription and never
        removes one. */
    method On(event: string, listener: object, handler: string)
      modifies this`subscriptions
      ensures subscriptions == old(subscriptions) + [Subscription(event, listener, handler)]
    {
      subscriptions := subscriptions + [Subscription(event, listener, handler)];
    }
  }
}
