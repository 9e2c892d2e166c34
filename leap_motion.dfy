/** The `leap-motion` element: its properties, the sixteen handlers that
    relay the controller's events, and the configuration watcher that decides
    when the controller is replaced and when a setter is called in place. */
module LeapMotion {
  import opened Js
  import opened Lifecycle
  import opened LeapController

  /** The configuration bundle the element observes as a unit. */
  datatype Config = Config(
    host: string,
    port: int,
    enableGestures: bool,
    background: bool,
    optimizeHmd: bool,
    frameEventName: string,
    useAllPlugins: bool,
    loopWhileDisconnected: bool,
    auto: bool)

  /** The declared defaults of the configuration properties. */
  function DefaultConfig(): Config {
    Config("127.0.0.1", 6437, false, false, false, "animationFrame", false, true, false)
  }

  /** The options `generateController` passes to `new Leap.Controller`. The
      element reads `this.optimizeHMD`, which is not one of its properties
      (the property is `optimizeHmd`), so that option is always undefined. */
  function OptionsOf(c: Config): ControllerOptions {
    ControllerOptions(c.host, c.port, c.enableGestures, c.background, Undefined,
                      c.frameEventName, c.useAllPlugins, c.loopWhileDisconnected)
  }

  /** The element's HMD setting never reaches a newly built controller:
      configurations that differ only in `optimizeHmd` build identical
      controllers. */
  lemma OptimizeHmdNotForwarded(c: Config, hmd: bool)
    ensures OptionsOf(c).optimizeHMD == Undefined
    ensures OptionsOf(c.(optimizeHmd := hmd)) == OptionsOf(c)
  {
  }

  /** The element's handler for each transport event; the model's method
      for `_onX` is `Element.OnX`. */
  function HandlerName(e: Arrival): string {
    match e
    case Blur => "_onBlur"
    case Connect(_) => "_onConnect"
    case DeviceAttached(_) => "_onDeviceAttached"
    case DeviceConnected(_) => "_onDeviceConnected"
    case DeviceDisconnected(_) => "_onDeviceDisconnected"
    case DeviceRemoved(_) => "_onDeviceRemoved"
    case DeviceStopped(_) => "_onDeviceStopped"
    case DeviceStreaming(_) => "_onDeviceStreaming"
    case Disconnect(_) => "_onDisconnect"
    case Focus => "_onFocus"
    case Frame(_) => "_onFrame"
    case FrameEnd(_) => "_onFrameEnd"
    case Gesture(_, _) => "_onGesture"
    case Protocol(_, _) => "_onProtocol"
    case StreamingStarted(_, _) => "_onStreamingStarted"
    case StreamingStopped(_, _) => "_onStreamingStopped"
  }

  /** The subscriptions `_bindEvents` adds to a controller, in order. */
  function Bindings(listener: object): seq<Subscription> {
    [Subscription("blur", listener, "_onBlur"),
     Subscription("connect", listener, "_onConnect"),
     Subscription("deviceAttached", listener, "_onDeviceAttached"),
     Subscription("deviceConnected", listener, "_onDeviceConnected"),
     Subscription("deviceDisconnected", listener, "_onDeviceDisconnected"),
     Subscription("deviceRemoved", listener, "_onDeviceRemoved"),
     Subscription("deviceStopped", listener, "_onDeviceStopped"),
     Subscription("deviceStreaming", listener, "_onDeviceStreaming"),
     Subscription("disconnect", listener, "_onDisconnect"),
     Subscription("focus", listener, "_onFocus"),
     Subscription("frame", listener, "_onFrame"),
     Subscription("frameEnd", listener, "_onFrameEnd"),
     Subscription("gesture", listener, "_onGesture"),
     Subscription("protocol", listener, "_onProtocol"),
     Subscription("streamingStarted", listener, "_onStreamingStarted"),
     Subscription("streamingStopped", listener, "_onStreamingStopped")]
  }

  /** Every transport event the adapter handles is subscribed, to its own
      handler. */
  lemma EveryArrivalIsBound(e: Arrival, listener: object)
    ensures Subscription(TransportName(e), listener, HandlerName(e)) in Bindings(listener)
  {
  }

  /** One delivery of each transport event, in the order `_bindEvents`
      subscribes them; the payloads are placeholders. */
  const BindOrder: seq<Arrival> :=
    [Blur,
     Arrival.Connect(false),
     DeviceAttached(Undefined),
     DeviceConnected(Undefined),
     DeviceDisconnected(Undefined),
     DeviceRemoved(Undefined),
     DeviceStopped(Undefined),
     DeviceStreaming(Undefined),
     Arrival.Disconnect(false),
     Focus,
     Frame(Undefined),
     FrameEnd(Undefined),
     Gesture(Undefined, Undefined),
     Protocol(Undefined, Undefined),
     StreamingStarted(false, Undefined),
     StreamingStopped(false, Undefined)]

  /** And nothing else is: `_bindEvents` makes one subscription per entry of
      `BindOrder`, each of that event to its own handler. */
  lemma BindingsOnlyArrivals(listener: object)
    ensures |Bindings(listener)| == |BindOrder|
    ensures forall i :: 0 <= i < |BindOrder| ==>
      Bindings(listener)[i] == Subscription(TransportName(BindOrder[i]), listener, HandlerName(BindOrder[i]))
  {
  }

  /** Whether a change of the bundle from `prev` to `next` makes the bundle
      observer build, bind and connect a new controller. */
  predicate Recreates(prev: Config, next: Config) {
    next != prev && next.auto
  }

  /** The calls a narrow observer makes on a live controller when its field
      goes from `prev` to `next`: one call with the new value if it changed. */
  function SetterCalls(prev: bool, next: bool): seq<bool> {
    if next != prev then [next] else []
  }

  /** With `auto` off the bundle observer never builds a controller,
      whatever changed. */
  lemma ManualNeverRecreates(prev: Config, next: Config)
    requires !next.auto
    ensures !Recreates(prev, next)
  {
  }

  /** With `auto` on, toggling `background` alone makes both observers act:
      the bundle observer builds a new controller and the narrow observer
      calls `setBackground` once with the new value. Setting it to the value
      it already has does neither. */
  lemma BackgroundToggleUnderAuto(prev: Config, b: bool)
    requires prev.auto
    ensures b != prev.background ==>
      Recreates(prev, prev.(background := b)) && SetterCalls(prev.background, b) == [b]
    ensures b == prev.background ==>
      !Recreates(prev, prev.(background := b)) && SetterCalls(prev.background, b) == []
  {
  }

  /** Changing `optimizeHmd` under `auto` also rebuilds the controller, and
      the rebuilt controller is no different from the old configuration's:
      only the narrow observer's `setOptimizeHMD` call carries the value. */
  lemma OptimizeHmdToggleUnderAuto(prev: Config, h: bool)
    requires prev.auto && h != prev.optimizeHmd
    ensures Recreates(prev, prev.(optimizeHmd := h))
    ensures OptionsOf(prev.(optimizeHmd := h)) == OptionsOf(prev)
    ensures SetterCalls(prev.optimizeHmd, h) == [h]
  {
  }

  class Element {
    // Configuration, set by the host page.
    var host: string
    var port: int
    var enableGestures: bool
    var background: bool
    var optimizeHmd: bool
    var frameEventName: string
    var useAllPlugins: bool
    var loopWhileDisconnected: bool
    var auto: bool

    // Derived state, written only by the handlers.
    var connected: bool
    var streaming: bool
    var lastDeviceInfo: JsValue
    var lastFrame: JsValue
    var lastFrameEnd: JsValue
    var lastGesture: JsValue
    var isDeviceAttached: bool
    var isDeviceConnected: bool
    var isDeviceStreaming: bool
    var isFocus: bool
    var lastProtocol: JsValue

    var controller: Controller?

    /** Every event the element has fired, in order. */
    ghost var log: seq<Fired>
    /** How many controllers `generateController` has built. */
    ghost var controllersCreated: nat

    function CurrentConfig(): Config
      reads this
    {
      Config(host, port, enableGestures, background, optimizeHmd, frameEventName,
             useAllPlugins, loopWhileDisconnected, auto)
    }

    function State(): DerivedState
      reads this
    {
      DerivedState(connected, streaming, isDeviceAttached, isDeviceConnected,
                   isDeviceStreaming, isFocus, lastDeviceInfo, lastFrame,
                   lastFrameEnd, lastGesture, lastProtocol)
    }

    /** The controller, as a set: empty until one is built. */
    function Live(): set<Controller>
      reads this
    {
      if controller == null then {} else {controller}
    }

    /** A new element holds the declared defaults and no controller. */
    constructor ()
      ensures CurrentConfig() == DefaultConfig()
      ensures State() == Initial()
      ensures controller == null && log == [] && controllersCreated == 0
    {
      host, port := "127.0.0.1", 6437;
      enableGestures, background, optimizeHmd := false, false, false;
      frameEventName := "animationFrame";
      useAllPlugins, loopWhileDisconnected, auto := false, true, false;
      connected, streaming := false, false;
      lastDeviceInfo, lastFrame, lastFrameEnd, lastGesture := EmptyObject, EmptyObject, Number(0), EmptyObject;
      isDeviceAttached, isDeviceConnected, isDeviceStreaming, isFocus := false, false, false, false;
      lastProtocol := Undefined;
      controller := null;
      log, controllersCreated := [], 0;
    }

    /** `this.fire(name, detail)`, as far as this model sees it. */
    ghost method Fire(name: string, detail: Detail)
      modifies this`log
      ensures log == old(log) + [Fired(name, detail)]
    {
      log := log + [Fired(name, detail)];
    }

    method OnBlur()
      modifies this`isFocus, this`log
      ensures !isFocus
      ensures State() == Step(old(State()), Blur)
      ensures log == old(log) + [Emitted(Blur)]
    {
      isFocus := false;
      Fire("blur", NoDetail);
    }

    method OnConnect()
      requires controller != null
      modifies this`connected, this`log
      ensures connected == controller.Connected()
      ensures State() == Step(old(State()), Arrival.Connect(controller.Connected()))
      ensures log == old(log) + [Emitted(Arrival.Connect(controller.Connected()))]
    {
      connected := controller.Connected();
      Fire("connect", NoDetail);
    }

    method OnDeviceAttached(deviceInfo: JsValue)
      modifies this`lastDeviceInfo, this`isDeviceAttached, this`log
      ensures lastDeviceInfo == deviceInfo && isDeviceAttached
      ensures State() == Step(old(State()), DeviceAttached(deviceInfo))
      ensures log == old(log) + [Emitted(DeviceAttached(deviceInfo))]
    {
      lastDeviceInfo := deviceInfo;
      isDeviceAttached := true;
      Fire("device-attached", Payload(deviceInfo));
    }

    method OnDeviceConnected(deviceInfo: JsValue)
      modifies this`lastDeviceInfo, this`isDeviceConnected, this`log
      ensures lastDeviceInfo == deviceInfo && isDeviceConnected
      ensures State() == Step(old(State()), DeviceConnected(deviceInfo))
      ensures log == old(log) + [Emitted(DeviceConnected(deviceInfo))]
    {
      lastDeviceInfo := deviceInfo;
      isDeviceConnected := true;
      Fire("device-connected", Payload(deviceInfo));
    }

    method OnDeviceDisconnected(deviceInfo: JsValue)
      modifies this`lastDeviceInfo, this`isDeviceConnected, this`log
      ensures lastDeviceInfo == deviceInfo && !isDeviceConnected
      ensures State() == Step(old(State()), DeviceDisconnected(deviceInfo))
      ensures log == old(log) + [Emitted(DeviceDisconnected(deviceInfo))]
    {
      lastDeviceInfo := deviceInfo;
      isDeviceConnected := false;
      Fire("device-disconnected", Payload(deviceInfo));
    }

    method OnDeviceRemoved(deviceInfo: JsValue)
      modifies this`lastDeviceInfo, this`isDeviceAttached, this`log
      ensures lastDeviceInfo == deviceInfo && !isDeviceAttached
      ensures State() == Step(old(State()), DeviceRemoved(deviceInfo))
      ensures log == old(log) + [Emitted(DeviceRemoved(deviceInfo))]
    {
      lastDeviceInfo := deviceInfo;
      isDeviceAttached := false;
      Fire("device-removed", Payload(deviceInfo));
    }

    method OnDeviceStopped(deviceInfo: JsValue)
      modifies this`lastDeviceInfo, this`isDeviceStreaming, this`log
      ensures lastDeviceInfo == deviceInfo && !isDeviceStreaming
      ensures State() == Step(old(State()), DeviceStopped(deviceInfo))
      ensures log == old(log) + [Emitted(DeviceStopped(deviceInfo))]
    {
      lastDeviceInfo := deviceInfo;
      isDeviceStreaming := false;
      Fire("device-stopped", Payload(deviceInfo));
    }

    method OnDeviceStreaming(deviceInfo: JsValue)
      modifies this`lastDeviceInfo, this`isDeviceStreaming, this`log
      ensures lastDeviceInfo == deviceInfo && isDeviceStreaming
      ensures State() == Step(old(State()), DeviceStreaming(deviceInfo))
      ensures log == old(log) + [Emitted(DeviceStreaming(deviceInfo))]
    {
      lastDeviceInfo := deviceInfo;
      isDeviceStreaming := true;
      Fire("device-streaming", Payload(deviceInfo));
    }

    method OnDisconnect()
      requires controller != null
      modifies this`connected, this`log
      ensures connected == controller.Connected()
      ensures State() == Step(old(State()), Arrival.Disconnect(controller.Connected()))
      ensures log == old(log) + [Emitted(Arrival.Disconnect(controller.Connected()))]
    {
      connected := controller.Connected();
      Fire("disconnect", NoDetail);
    }

    method OnFocus()
      modifies this`isFocus, this`log
      ensures isFocus
      ensures State() == Step(old(State()), Focus)
      ensures log == old(log) + [Emitted(Focus)]
    {
      isFocus := true;
      Fire("focus", NoDetail);
    }

    method OnFrame(frame: JsValue)
      modifies this`lastFrame, this`log
      ensures lastFrame == frame
      ensures State() == Step(old(State()), Frame(frame))
      ensures log == old(log) + [Emitted(Frame(frame))]
    {
      lastFrame := frame;
      Fire("frame", Payload(frame));
    }

    method OnFrameEnd(frameEnd: JsValue)
      modifies this`lastFrameEnd, this`log
      ensures lastFrameEnd == frameEnd
      ensures State() == Step(old(State()), FrameEnd(frameEnd))
      ensures log == old(log) + [Emitted(FrameEnd(frameEnd))]
    {
      lastFrameEnd := frameEnd;
      Fire("frameEnd", Payload(frameEnd));
    }

    method OnGesture(gesture: JsValue, frame: JsValue)
      modifies this`lastGesture, this`log
      ensures lastGesture == gesture
      ensures State() == Step(old(State()), Gesture(gesture, frame))
      ensures log == old(log) + [Emitted(Gesture(gesture, frame))]
    {
      lastGesture := gesture;
      Fire("gesture", GestureDetail(gesture, frame));
    }

    method OnProtocol(protocol: JsValue, frame: JsValue)
      modifies this`lastProtocol, this`log
      ensures lastProtocol == protocol
      ensures State() == Step(old(State()), Protocol(protocol, frame))
      ensures log == old(log) + [Emitted(Protocol(protocol, frame))]
    {
      lastProtocol := protocol;
      Fire("protocol", ProtocolDetail(protocol, frame));
    }

    method OnStreamingStarted(deviceInfo: JsValue)
      requires controller != null
      modifies this`streaming, this`lastDeviceInfo, this`log
      ensures streaming == controller.Streaming() && lastDeviceInfo == deviceInfo
      ensures State() == Step(old(State()), StreamingStarted(controller.Streaming(), deviceInfo))
      ensures log == old(log) + [Emitted(StreamingStarted(controller.Streaming(), deviceInfo))]
    {
      streaming := controller.Streaming();
      lastDeviceInfo := deviceInfo;
      Fire("streaming-started", Payload(deviceInfo));
    }

    method OnStreamingStopped(deviceInfo: JsValue)
      requires controller != null
      modifies this`streaming, this`lastDeviceInfo, this`log
      ensures streaming == controller.Streaming() && lastDeviceInfo == deviceInfo
      ensures State() == Step(old(State()), StreamingStopped(controller.Streaming(), deviceInfo))
      ensures log == old(log) + [Emitted(StreamingStopped(controller.Streaming(), deviceInfo))]
    {
      streaming := controller.Streaming();
      lastDeviceInfo := deviceInfo;
      Fire("streaming-stopped", Payload(deviceInfo));
    }

    /** The controller answering what a delivery recorded: the events whose
        handlers query it carry the answer it gives now. */
    predicate Answers(e: Arrival)
      reads this, Live()
    {
      match e
      case Connect(now) => controller != null && now == controller.Connected()
      case Disconnect(now) => controller != null && now == controller.Connected()
      case StreamingStarted(now, _) => controller != null && now == controller.Streaming()
      case StreamingStopped(now, _) => controller != null && now == controller.Streaming()
      case _ => true
    }

    /** The controller calling the handler bound to `e` (see `HandlerName`). */
    method Deliver(e: Arrival)
      requires Answers(e)
      modifies this`connected, this`streaming, this`isDeviceAttached, this`isDeviceConnected
      modifies this`isDeviceStreaming, this`isFocus, this`lastDeviceInfo, this`lastFrame
      modifies this`lastFrameEnd, this`lastGesture, this`lastProtocol, this`log
      ensures State() == Step(old(State()), e) && log == old(log) + [Emitted(e)]
    {
      match e
      case Blur => OnBlur();
      case Connect(_) => OnConnect();
      case DeviceAttached(info) => OnDeviceAttached(info);
      case DeviceConnected(info) => OnDeviceConnected(info);
      case DeviceDisconnected(info) => OnDeviceDisconnected(info);
      case DeviceRemoved(info) => OnDeviceRemoved(info);
      case DeviceStopped(info) => OnDeviceStopped(info);
      case DeviceStreaming(info) => OnDeviceStreaming(info);
      case Disconnect(_) => OnDisconnect();
      case Focus => OnFocus();
      case Frame(frame) => OnFrame(frame);
      case FrameEnd(t) => OnFrameEnd(t);
      case Gesture(g, frame) => OnGesture(g, frame);
      case Protocol(p, frame) => OnProtocol(p, frame);
      case StreamingStarted(_, info) => OnStreamingStarted(info);
      case StreamingStopped(_, info) => OnStreamingStopped(info);
    }

    /** Deliveries compose: once the deliveries `es` have taken the element
        from state `s0` to `Run(s0, es)` and grown its log by `FiredLog(es)`,
        one more delivery keeps both so for `es + [e]`. */
    method DeliverNext(e: Arrival, ghost s0: DerivedState, ghost es: seq<Arrival>, ghost log0: seq<Fired>)
      requires Answers(e)
      requires State() == Run(s0, es) && log == log0 + FiredLog(es)
      modifies this`connected, this`streaming, this`isDeviceAttached, this`isDeviceConnected
      modifies this`isDeviceStreaming, this`isFocus, this`lastDeviceInfo, this`lastFrame
      modifies this`lastFrameEnd, this`lastGesture, this`lastProtocol, this`log
      ensures State() == Run(s0, es + [e]) && log == log0 + FiredLog(es + [e])
    {
      Deliver(e);
      HandlerExtendsRun(s0, es, e);
    }

    /** `generateController`: builds a controller from the current
        configuration and makes it the element's controller. */
    method GenerateController() returns (c: Controller)
      modifies this`controller, this`controllersCreated
      ensures fresh(c) && controller == c && c.Untouched()
      ensures c.options == OptionsOf(CurrentConfig())
      ensures controllersCreated == old(controllersCreated) + 1
    {
      // `this.optimizeHMD` is not a property of the element: it reads as undefined.
      c := new Controller(ControllerOptions(host, port, enableGestures, background, Undefined,
                                            frameEventName, useAllPlugins, loopWhileDisconnected));
      controller := c;
      controllersCreated := controllersCreated + 1;
    }

    /** `connect()` dereferences the controller without checking it. */
    method Connect()
      requires controller != null
      modifies controller`connectCalls, controller`subscribedAtConnect
      ensures controller.connectCalls == old(controller.connectCalls) + 1
      ensures controller.subscribedAtConnect == old(controller.subscribedAtConnect) + [|controller.subscriptions|]
    {
      controller.Connect();
    }

    /** `disconnect()` dereferences the controller without checking it. */
    method Disconnect()
      requires controller != null
      modifies controller`disconnectCalls
      ensures controller.disconnectCalls == old(controller.disconnectCalls) + 1
    {
      controller.Disconnect();
    }

    /** `_bindEvents`: with a controller, subscribes the sixteen handlers to
        it; nothing is ever unsubscribed. */
    method BindEvents()
      modifies Live()`subscriptions
      ensures controller != null ==> controller.subscriptions == old(controller.subscriptions) + Bindings(this)
    {
      if controller != null {
        var c := controller;
        c.On("blur", this, "_onBlur");
        c.On("connect", this, "_onConnect");
        c.On("deviceAttached", this, "_onDeviceAttached");
        c.On("deviceConnected", this, "_onDeviceConnected");
        c.On("deviceDisconnected", this, "_onDeviceDisconnected");
        c.On("deviceRemoved", this, "_onDeviceRemoved");
        c.On("deviceStopped", this, "_onDeviceStopped");
        c.On("deviceStreaming", this, "_onDeviceStreaming");
        c.On("disconnect", this, "_onDisconnect");
        c.On("focus", this, "_onFocus");
        c.On("frame", this, "_onFrame");
        c.On("frameEnd", this, "_onFrameEnd");
        c.On("gesture", this, "_onGesture");
        c.On("protocol", this, "_onProtocol");
        c.On("streamingStarted", this, "_onStreamingStarted");
        c.On("streamingStopped", this, "_onStreamingStopped");
      }
    }

    /** `_configOptionsChanged`: only when `auto` is set, builds a new
        controller, binds the handlers to it and connects it, once each. The
        previous controller is dropped with its subscriptions in place. */
    method ConfigOptionsChanged()
      modifies this`controller, this`controllersCreated
      ensures !auto ==> controller == old(controller) && controllersCreated == old(controllersCreated)
      ensures auto ==> fresh(controller) && controllersCreated == old(controllersCreated) + 1
      ensures auto ==> controller.options == OptionsOf(CurrentConfig())
      ensures auto ==> controller.subscriptions == Bindings(this) && controller.connectCalls == 1
      ensures auto ==> controller.subscribedAtConnect == [|Bindings(this)|]
      ensures auto ==> controller.disconnectCalls == 0 && controller.backgroundArgs == [] && controller.optimizeHmdArgs == []
      ensures old(controller) != null ==> old(controller).subscriptions == old(controller.subscriptions)
    {
      if auto {
        var c := GenerateController();
        BindEvents();
        Connect();
      }
    }

    /** `_backgroundChange`: with a controller, one `setBackground` call with
        the current value; without one, nothing. */
    method BackgroundChange()
      modifies Live()`backgroundArgs
      ensures controller != null ==> controller.backgroundArgs == old(controller.backgroundArgs) + [background]
    {
      if controller != null {
        controller.SetBackground(background);
      }
    }

    /** `_optimizeHmdChange`: with a controller, one `setOptimizeHMD` call
        with the current value; without one, nothing. */
    method OptimizeHmdChange()
      modifies Live()`optimizeHmdArgs
      ensures controller != null ==> controller.optimizeHmdArgs == old(controller.optimizeHmdArgs) + [optimizeHmd]
    {
      if controller != null {
        controller.SetOptimizeHMD(optimizeHmd);
      }
    }

    /** Assigns the configuration properties, before any observer runs. */
    method SetProperties(c: Config)
      modifies this`host, this`port, this`enableGestures, this`background, this`optimizeHmd
      modifies this`frameEventName, this`useAllPlugins, this`loopWhileDisconnected, this`auto
      ensures CurrentConfig() == c
    {
      host, port, enableGestures, background, optimizeHmd := c.host, c.port, c.enableGestures, c.background, c.optimizeHmd;
      frameEventName, useAllPlugins, loopWhileDisconnected, auto := c.frameEventName, c.useAllPlugins, c.loopWhileDisconnected, c.auto;
    }

    /** The two single-field observers, each run when its field differs from
        the value it had before the properties were set. */
    method NarrowObservers(prevBackground: bool, prevOptimizeHmd: bool)
      modifies Live()`backgroundArgs, Live()`optimizeHmdArgs
      ensures controller != null ==>
        controller.backgroundArgs == old(controller.backgroundArgs) + SetterCalls(prevBackground, background) &&
        controller.optimizeHmdArgs == old(controller.optimizeHmdArgs) + SetterCalls(prevOptimizeHmd, optimizeHmd)
    {
      if background != prevBackground {
        BackgroundChange();
      }
      if optimizeHmd != prevOptimizeHmd {
        OptimizeHmdChange();
      }
    }

    /** The observer on the bundle of configuration properties: it runs
        `_configOptionsChanged` when any of them differs from `prev`, the
        values they had before the properties were set. */
    method BundleObserver(prev: Config)
      modifies this`controller, this`controllersCreated
      ensures Recreates(prev, CurrentConfig()) ==>
        fresh(controller) && controllersCreated == old(controllersCreated) + 1 &&
        controller.options == OptionsOf(CurrentConfig()) && controller.subscriptions == Bindings(this) &&
        controller.connectCalls == 1 && controller.disconnectCalls == 0 &&
        controller.subscribedAtConnect == [|Bindings(this)|] &&
        controller.backgroundArgs == [] && controller.optimizeHmdArgs == []
      ensures !Recreates(prev, CurrentConfig()) ==>
        controller == old(controller) && controllersCreated == old(controllersCreated)
    {
      if CurrentConfig() != prev {
        ConfigOptionsChanged();
      }
    }

    /** Setting the properties to `c` when the bundle observer builds a new
        controller: the new controller is bound and connected once, and then
        receives the setter calls of the two single-field observers; the
        replaced controller receives none. */
    method ReconfigureRecreating(c: Config)
      requires Recreates(CurrentConfig(), c)
      modifies this`host, this`port, this`enableGestures, this`background, this`optimizeHmd
      modifies this`frameEventName, this`useAllPlugins, this`loopWhileDisconnected, this`auto
      modifies this`controller, this`controllersCreated
      modifies Live()`backgroundArgs, Live()`optimizeHmdArgs
      ensures CurrentConfig() == c
      ensures fresh(controller) && controllersCreated == old(controllersCreated) + 1
      ensures controller.options == OptionsOf(c) && controller.subscriptions == Bindings(this)
      ensures controller.connectCalls == 1 && controller.disconnectCalls == 0
      ensures controller.subscribedAtConnect == [|Bindings(this)|]
      ensures controller.backgroundArgs == SetterCalls(old(background), c.background)
      ensures controller.optimizeHmdArgs == SetterCalls(old(optimizeHmd), c.optimizeHmd)
      ensures old(controller) != null ==>
        old(controller).backgroundArgs == old(controller.backgroundArgs) &&
        old(controller).optimizeHmdArgs == old(controller.optimizeHmdArgs)
    {
      var prev := CurrentConfig();
      SetProperties(c);
      // The bundle differs from `prev`, so its observer runs `_configOptionsChanged`.
      ConfigOptionsChanged();
      NarrowObservers(prev.background, prev.optimizeHmd);
    }

    /** Setting the properties to `c` when the bundle observer does not build
        a controller (nothing it watches changed, or `auto` is off): the same
        controller, if any, receives the single-field observers' setter calls. */
    method ReconfigureKeeping(c: Config)
      requires !Recreates(CurrentConfig(), c)
      modifies this`host, this`port, this`enableGestures, this`background, this`optimizeHmd
      modifies this`frameEventName, this`useAllPlugins, this`loopWhileDisconnected, this`auto
      modifies this`controller, this`controllersCreated
      modifies Live()`backgroundArgs, Live()`optimizeHmdArgs
      ensures CurrentConfig() == c
      ensures controller == old(controller) && controllersCreated == old(controllersCreated)
      ensures controller != null ==>
        controller.backgroundArgs == old(controller.backgroundArgs) + SetterCalls(old(background), c.background)
      ensures controller != null ==>
        controller.optimizeHmdArgs == old(controller.optimizeHmdArgs) + SetterCalls(old(optimizeHmd), c.optimizeHmd)
    {
      var prev := CurrentConfig();
      SetProperties(c);
      BundleObserver(prev);
      NarrowObservers(prev.background, prev.optimizeHmd);
    }

    /** The host sets the configuration properties to `c`; each observer
        whose inputs changed runs once, in the order the observers are
        declared (bundle, background, optimizeHmd). */
    method Reconfigure(c: Config)
      modifies this`host, this`port, this`enableGestures, this`background, this`optimizeHmd
      modifies this`frameEventName, this`useAllPlugins, this`loopWhileDisconnected, this`auto
      modifies this`controller, this`controllersCreated
      modifies Live()`backgroundArgs, Live()`optimizeHmdArgs
      ensures CurrentConfig() == c
      ensures Recreates(old(CurrentConfig()), c) ==>
        fresh(controller) && controllersCreated == old(controllersCreated) + 1 &&
        controller.options == OptionsOf(c) &&
        controller.subscriptions == Bindings(this) &&
        controller.connectCalls == 1 && controller.disconnectCalls == 0 &&
        controller.subscribedAtConnect == [|Bindings(this)|] &&
        controller.backgroundArgs == SetterCalls(old(background), c.background) &&
        controller.optimizeHmdArgs == SetterCalls(old(optimizeHmd), c.optimizeHmd)
      ensures Recreates(old(CurrentConfig()), c) && old(controller) != null ==>
        old(controller).backgroundArgs == old(controller.backgroundArgs) &&
        old(controller).optimizeHmdArgs == old(controller.optimizeHmdArgs)
      ensures !Recreates(old(CurrentConfig()), c) ==>
        controller == old(controller) && controllersCreated == old(controllersCreated)
      ensures !Recreates(old(CurrentConfig()), c) && old(controller) != null ==>
        old(controller).backgroundArgs == old(controller.backgroundArgs) + SetterCalls(old(background), c.background) &&
        old(controller).optimizeHmdArgs == old(controller.optimizeHmdArgs) + SetterCalls(old(optimizeHmd), c.optimizeHmd)
    {
      if Recreates(CurrentConfig(), c) {
        ReconfigureRecreating(c);
      } else {
        ReconfigureKeeping(c);
      }
    }
  }

  /** The session opens and later closes: the element relays `connect` with
      `connected` true and then `disconnect` with `connected` false, because
      each handler asks the controller at the moment it runs. */
  method ConnectThenDisconnect(e: Element)
    requires e.controller != null
    modifies e`connected, e`log, e.controller`isConnected, e.controller`isStreaming
    ensures e.controller == old(e.controller) && !e.connected
    ensures e.State() == old(e.State()).(connected := false)
    ensures e.controller.Streaming() == old(e.controller.Streaming())
    ensures e.log == old(e.log) + [Emitted(Arrival.Connect(true)), Emitted(Arrival.Disconnect(false))]
  {
    var k := e.controller;
    k.SessionChanged(true, k.Streaming());
    e.OnConnect();
    assert e.connected;
    k.SessionChanged(false, k.Streaming());
    e.OnDisconnect();
  }
}
