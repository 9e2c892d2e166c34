# leap-motion element, modelled in Dafny

The `leap-motion` Polymer element wraps a `Leap.Controller` from the Leap
Motion tracking library. It does two things:

- **Lifecycle adapter.** Sixteen handlers receive the controller's events.
  Each handler overwrites one or two of the element's derived properties,
  such as `isFocus`, `connected`, `isDeviceAttached` and `lastDeviceInfo`.
  It then re-fires exactly one event under a public name, with a fixed
  payload.
- **Configuration watcher.** Three observers watch the connection options.
  The bundle observer rebuilds, rebinds and reconnects the controller, but
  only when `auto` is set. The `background` and `optimizeHmd` observers call
  a setter on a controller that already exists.

The project has four modules:

- `Js` (`js.dfy`): the JavaScript values the element stores and forwards, a
  fired event, and the camelCase-to-hyphen renaming of event names.
- `Lifecycle` (`lifecycle.dfy`): the adapter as values.
  - `Arrival` is one delivery of a transport event.
  - `Step` is the state a handler leaves behind.
  - `Emitted` is the event a handler fires.
  - `Effects` is the table of fields each event writes.
  - `Run` folds `Step` over a sequence of deliveries.
  - The lemmas give exact frame conditions, independence of the presence
    flags, and the value each field holds after any sequence of deliveries.
- `LeapController` (`controller.dfy`): the call surface of `Leap.Controller`.
  It has:
  - ghost counters for `connect` and `disconnect`;
  - for each `connect` call, how many subscriptions existed when it was made;
  - ghost logs of every `setBackground` and `setOptimizeHMD` argument;
  - a ghost log of every `on` subscription (event, listener and handler);
  - `connected()` / `streaming()` answers. These change only through
    `SessionChanged`, which stands for the library's own session
    transitions.
- `LeapMotion` (`leap_motion.dfy`): the element as a class, with one field
  per declared property plus `lastProtocol`.
  - There is one method per handler and per watcher.
  - Each handler is proved equal to `Lifecycle.Step` and `Lifecycle.Emitted`
    on the element's state and on its ghost log of fired events.
  - `Reconfigure` sets the configuration properties and runs the observers.

Behaviour of the source that the model keeps as written:

- `generateController` reads `this.optimizeHMD`, but the property is
  `optimizeHmd`. A new controller therefore always gets an undefined HMD
  option.
- `_bindEvents` never removes the subscriptions of an earlier controller.
- The bundle observer also watches `background`, `optimizeHmd` and `auto`.
  With `auto` set, one `background` change both rebuilds the controller and
  calls `setBackground` on the new one.
- `connect()` and `disconnect()` use the controller without checking for it,
  so they require one.
- `lastProtocol` is assigned but never declared, so it starts undefined.

## Model

| member | source | states |
|---|---|---|
| LeapMotion.Element.constructor | components/leap-motion/leap-motion.js:129-297 | the configuration is the declared defaults: host 127.0.0.1, port 6437, loopWhileDisconnected true, auto false, the other flags false, frameEventName animationFrame. The derived state is `Initial()`: all six flags false, `lastFrameEnd` 0, the object properties `{}`, `lastProtocol` undefined. No controller exists and nothing has been fired |
| LeapMotion.Element.OnBlur | components/leap-motion/leap-motion.js:356-359 | `isFocus` becomes false, every other derived field is unchanged, and `blur` is fired with no detail |
| LeapMotion.Element.OnConnect | components/leap-motion/leap-motion.js:361-364 | `connected` becomes whatever `controller.connected()` answers at that moment, nothing else changes, and `connect` is fired with no detail. A controller is required |
| LeapMotion.Element.OnDeviceAttached | components/leap-motion/leap-motion.js:366-370 | `lastDeviceInfo` becomes the argument and `isDeviceAttached` becomes true. Nothing else changes, and `device-attached` is fired with the info |
| LeapMotion.Element.OnDeviceConnected | components/leap-motion/leap-motion.js:372-376 | `lastDeviceInfo` becomes the argument and `isDeviceConnected` becomes true. Nothing else changes, and `device-connected` is fired with the info |
| LeapMotion.Element.OnDeviceDisconnected | components/leap-motion/leap-motion.js:378-382 | `lastDeviceInfo` becomes the argument and `isDeviceConnected` becomes false. Nothing else changes, and `device-disconnected` is fired with the info |
| LeapMotion.Element.OnDeviceRemoved | components/leap-motion/leap-motion.js:384-388 | `lastDeviceInfo` becomes the argument and `isDeviceAttached` becomes false. Nothing else changes, and `device-removed` is fired with the info |
| LeapMotion.Element.OnDeviceStopped | components/leap-motion/leap-motion.js:390-394 | `lastDeviceInfo` becomes the argument and `isDeviceStreaming` becomes false. Nothing else changes, and `device-stopped` is fired with the info |
| LeapMotion.Element.OnDeviceStreaming | components/leap-motion/leap-motion.js:396-400 | `lastDeviceInfo` becomes the argument and `isDeviceStreaming` becomes true. Nothing else changes, and `device-streaming` is fired with the info |
| LeapMotion.Element.OnDisconnect | components/leap-motion/leap-motion.js:402-405 | `connected` becomes the controller's current `connected()` answer, not a constant. `disconnect` is fired with no detail. A controller is required |
| LeapMotion.ConnectThenDisconnect | components/leap-motion/leap-motion.js:361-405 | when the session opens and then closes, the element fires `connect`, then `disconnect`, and ends with `connected` false. Each handler re-queries the controller. No other derived field changes, and the streaming answer stays the same |
| LeapMotion.Element.OnFocus | components/leap-motion/leap-motion.js:407-410 | `isFocus` becomes true, nothing else changes, and `focus` is fired with no detail |
| LeapMotion.Element.OnFrame | components/leap-motion/leap-motion.js:412-415 | `lastFrame` becomes the frame, and `frame` is fired with the frame |
| LeapMotion.Element.OnFrameEnd | components/leap-motion/leap-motion.js:417-420 | `lastFrameEnd` becomes the timestamp, and `frameEnd` is fired with it, not hyphenated |
| LeapMotion.Element.OnGesture | components/leap-motion/leap-motion.js:422-428 | `lastGesture` becomes the gesture, and `gesture` is fired with `{gesture, frame}` |
| LeapMotion.Element.OnProtocol | components/leap-motion/leap-motion.js:430-436 | `lastProtocol` becomes the protocol, and `protocol` is fired with `{protocol, frame}` |
| LeapMotion.Element.OnStreamingStarted | components/leap-motion/leap-motion.js:438-442 | `streaming` becomes the controller's current `streaming()` answer and `lastDeviceInfo` the argument. `streaming-started` is fired with the info |
| LeapMotion.Element.OnStreamingStopped | components/leap-motion/leap-motion.js:444-448 | `streaming` becomes the controller's current `streaming()` answer and `lastDeviceInfo` the argument. `streaming-stopped` is fired with the info |
| Lifecycle.StepFrame | components/leap-motion/leap-motion.js:356-448 | every handler writes exactly the fields its row of the `Effects` table names, with that row's values, and leaves every other derived field as it was |
| Lifecycle.PresenceFlagsIndependent | components/leap-motion/leap-motion.js:366-410 | no event writes two of the four presence flags (attached, connected, streaming, focus) |
| Lifecycle.PresenceEventsDisjoint | components/leap-motion/leap-motion.js:366-410 | the events that drive one presence flag write no other presence flag, so any run of them leaves every other presence flag at its starting value |
| Lifecycle.RunIsLastWrite | components/leap-motion/leap-motion.js:356-448 | after any sequence of deliveries, each derived field holds the value written by the latest delivery that writes it, or its starting value if none does |
| Lifecycle.RunDependsOnlyOnGoverning | components/leap-motion/leap-motion.js:356-448 | each derived field depends only on the deliveries that write it; removing all the others leaves the field's value the same |
| Lifecycle.AttachConnectRemove | components/leap-motion/leap-motion.js:366-388 | attached, then connected, then removed: the device is not attached, is still connected, and `lastDeviceInfo` is the removal's argument |
| Lifecycle.AttachStreamRemove | components/leap-motion/leap-motion.js:366-400 | attached, then streaming, then removed: removal clears only the attached flag, and the last info is the removal's |
| Lifecycle.Emitted | components/leap-motion/leap-motion.js:356-448 | a fired event carries no detail exactly for blur, connect, disconnect and focus |
| Lifecycle.FiredLog | components/leap-motion/leap-motion.js:356-448 | defines the log a sequence of deliveries is meant to produce: one fired event per delivery, in the same order, each the one that delivery's handler fires. `DeliverNext` ties it to the element |
| Lifecycle.HandlerExtendsRun | components/leap-motion/leap-motion.js:356-448 | one more delivery extends `Run` by one `Step` and `FiredLog` by one `Emitted` event, so the per-handler contracts compose over any sequence of calls |
| Lifecycle.PublicNames | components/leap-motion/leap-motion.js:356-448 | the public name is the transport name unchanged for blur, connect, disconnect, focus, frame, frameEnd, gesture and protocol. It is the hyphenated transport name for the six device events and the two streaming events |
| Lifecycle.FrameEndNotHyphenated | components/leap-motion/leap-motion.js:417-420 | `frameEnd` is re-fired as `frameEnd`, although hyphenating it would give `frame-end` |
| Lifecycle.PublicNamesDistinct | components/leap-motion/leap-motion.js:356-448 | two deliveries fire under the same public name exactly when they are the same transport event |
| Lifecycle.HyphenatedNamesLowerCase | components/leap-motion/leap-motion.js:366-400 | the device and streaming events are fired under names with no capital letter |
| LeapMotion.EveryArrivalIsBound | components/leap-motion/leap-motion.js:335-354 | every transport event the adapter handles is among the subscriptions `_bindEvents` makes, bound to the element's own handler for that event (`_onBlur` for `blur`, and so on) |
| LeapMotion.BindingsOnlyArrivals | components/leap-motion/leap-motion.js:335-354 | the converse: `_bindEvents` makes exactly sixteen subscriptions, and the i-th binds the i-th event of `BindOrder` to that event's own handler |
| LeapMotion.Element.Deliver | components/leap-motion/leap-motion.js:335-448 | the controller calling the handler bound to a delivery. The derived state becomes `Step` of that delivery and the log grows by its `Emitted` event. For connect, disconnect and the two streaming events, the delivery must carry the controller's current answer |
| LeapMotion.Element.DeliverNext | components/leap-motion/leap-motion.js:356-448 | after deliveries `es` from state `s0`, the element is in `Run(s0, es)` and its log has grown by `FiredLog(es)`. One more delivery keeps both facts true for `es + [e]` |
| LeapMotion.Element.BindEvents | components/leap-motion/leap-motion.js:335-354 | with a controller, its subscriptions grow by exactly the sixteen bindings, each event bound to its own handler, in source order. Nothing earlier is removed. Without a controller, nothing changes |
| LeapMotion.Element.GenerateController | components/leap-motion/leap-motion.js:307-319 | builds exactly one new controller with no calls on it yet. It stores the controller in the element and returns it. Its options are the current host, port, enableGestures, background, frameEventName, useAllPlugins and loopWhileDisconnected, with an undefined HMD option |
| LeapMotion.OptimizeHmdNotForwarded | components/leap-motion/leap-motion.js:307-319 | the HMD option of a new controller is undefined, and configurations that differ only in `optimizeHmd` build identical controllers |
| LeapMotion.Element.Connect | components/leap-motion/leap-motion.js:324-326 | calls `connect` exactly once on the current controller, which must exist. The call records how many subscriptions the controller had at that moment |
| LeapMotion.Element.Disconnect | components/leap-motion/leap-motion.js:331-333 | calls `disconnect` exactly once on the current controller, which must exist |
| LeapMotion.Element.ConfigOptionsChanged | components/leap-motion/leap-motion.js:450-456 | with `auto` off, no controller is built and nothing else changes. With `auto` on, one new controller replaces the old one. It has the current options and the sixteen bindings, and has been connected exactly once. All sixteen bindings were already in place at the connect, so binding comes before connecting. It has had no other calls. The old controller keeps its subscriptions |
| LeapMotion.Element.BackgroundChange | components/leap-motion/leap-motion.js:457-461 | with a controller, `setBackground` is called once with the current `background`. The controller is not replaced. Without one, nothing happens |
| LeapMotion.Element.OptimizeHmdChange | components/leap-motion/leap-motion.js:462-466 | with a controller, `setOptimizeHMD` is called once with the current `optimizeHmd`. The controller is not replaced. Without one, nothing happens |
| LeapMotion.Element.BundleObserver | components/leap-motion/leap-motion.js:300-302 | when the bundle changed and `auto` is on, a fresh controller replaces the old one. It is bound first and then connected once. Otherwise the controller and the number built are unchanged |
| LeapMotion.Element.NarrowObservers | components/leap-motion/leap-motion.js:303-304 | a live controller gets one `setBackground` call if `background` changed and one `setOptimizeHMD` call if `optimizeHmd` changed, each with the new value |
| LeapMotion.ManualNeverRecreates | components/leap-motion/leap-motion.js:450-456 | with `auto` off, no change of configuration builds a controller |
| LeapMotion.BackgroundToggleUnderAuto | components/leap-motion/leap-motion.js:300-304 | with `auto` on, changing `background` alone both rebuilds the controller and calls `setBackground` once with the new value. Setting the value it already has does neither |
| LeapMotion.OptimizeHmdToggleUnderAuto | components/leap-motion/leap-motion.js:300-319 | with `auto` on, changing `optimizeHmd` rebuilds a controller with the same options as before. Only the `setOptimizeHMD` call carries the new value |
| LeapMotion.Element.ReconfigureRecreating | components/leap-motion/leap-motion.js:300-305 | when the bundle observer rebuilds: the new controller has the new options and the bindings. It was connected once, after all sixteen bindings were made. Its setter logs are exactly the narrow observers' calls. The replaced controller gets no setter call |
| LeapMotion.Element.ReconfigureKeeping | components/leap-motion/leap-motion.js:300-305 | when it does not rebuild: the same controller, if any, receives exactly the narrow observers' setter calls appended to its logs |
| LeapMotion.Element.Reconfigure | components/leap-motion/leap-motion.js:300-305 | setting the configuration to `c` leaves the properties equal to `c`. It rebuilds the controller exactly when something changed and `auto` is set. Either way, the controller then in place receives exactly the narrow observers' setter calls. A replaced controller receives none |

## Left out

- Polymer observer dispatch is left out. `Reconfigure` sets all configuration properties and then runs each observer whose inputs changed, once each, in declaration order. How Polymer actually batches and orders observers is not modelled, and neither is the observer run at element creation.
- `notify` / `readOnly` change notification and the DOM event dispatch inside `fire` are left out. `fire` is an append of (name, detail) to a ghost log.
- The internals of `Leap.Controller` are left out: the WebSocket transport, frame decoding, gesture recognition and plugin loading. It is an external library. Its session transitions are reduced to `SessionChanged`, which sets the `connected()` and `streaming()` answers to any values. When and why the library changes them is not modelled.
- Asynchronous delivery is left out. Each handler is one atomic method call, and events reaching handlers bound to an earlier controller are not modelled beyond those subscriptions staying in place.
- The defaults of `lastDeviceInfo`, `lastFrame` and `lastGesture` are each a fresh `{}` made by its own default function, so they are three distinct objects. The model gives all three the single value `EmptyObject`, so their identities are merged.
- JavaScript numbers are modelled as unbounded integers (`port`, the default `lastFrameEnd`). The library's frame, device and gesture objects are opaque identities.
- `_onBlur` takes a frame argument that it never uses, so the model's `OnBlur` has no parameter.
- The doc-comment blocks that declare the public events carry no behaviour and are not modelled.
- The `readonly: true` markings on the derived properties are left out. They are Polymer plumbing. In the model, only the handlers assign the derived fields.
