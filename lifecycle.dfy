/** The lifecycle adapter as values: the sixteen transport events, the
    derived state they update, the event each one re-fires, and what a whole
    sequence of deliveries leaves behind. The element's handler methods in
    module LeapMotion are proved against `Step` and `Emitted`. */
module Lifecycle {
  import opened Js

  /** One delivery of a transport event to its handler. The events whose
      handlers query the controller (`connect`, `disconnect`,
      `streamingStarted`, `streamingStopped`) carry the answer the controller
      gave at that moment. */
  datatype Arrival =
    | Blur
    | Connect(connectedNow: bool)
    | DeviceAttached(info: JsValue)
    | DeviceConnected(info: JsValue)
    | DeviceDisconnected(info: JsValue)
    | DeviceRemoved(info: JsValue)
    | DeviceStopped(info: JsValue)
    | DeviceStreaming(info: JsValue)
    | Disconnect(connectedNow: bool)
    | Focus
    | Frame(frame: JsValue)
    | FrameEnd(timestamp: JsValue)
    | Gesture(gesture: JsValue, frame: JsValue)
    | Protocol(protocol: JsValue, frame: JsValue)
    | StreamingStarted(streamingNow: bool, info: JsValue)
    | StreamingStopped(streamingNow: bool, info: JsValue)

  /** The element's derived (output) properties. */
  datatype DerivedState = DerivedState(
    connected: bool,
    streaming: bool,
    isDeviceAttached: bool,
    isDeviceConnected: bool,
    isDeviceStreaming: bool,
    isFocus: bool,
    lastDeviceInfo: JsValue,
    lastFrame: JsValue,
    lastFrameEnd: JsValue,
    lastGesture: JsValue,
    lastProtocol: JsValue)

  /** The declared defaults; `lastProtocol` is not a declared property, so it
      starts out undefined. */
  function Initial(): DerivedState {
    DerivedState(false, false, false, false, false, false,
                 EmptyObject, EmptyObject, Number(0), EmptyObject, Undefined)
  }

  /** The name the controller uses for the event. */
  function TransportName(e: Arrival): string {
    match e
    case Blur => "blur"
    case Connect(_) => "connect"
    case DeviceAttached(_) => "deviceAttached"
    case DeviceConnected(_) => "deviceConnected"
    case DeviceDisconnected(_) => "deviceDisconnected"
    case DeviceRemoved(_) => "deviceRemoved"
    case DeviceStopped(_) => "deviceStopped"
    case DeviceStreaming(_) => "deviceStreaming"
    case Disconnect(_) => "disconnect"
    case Focus => "focus"
    case Frame(_) => "frame"
    case FrameEnd(_) => "frameEnd"
    case Gesture(_, _) => "gesture"
    case Protocol(_, _) => "protocol"
    case StreamingStarted(_, _) => "streamingStarted"
    case StreamingStopped(_, _) => "streamingStopped"
  }

  /** The state a handler leaves behind. */
  function Step(s: DerivedState, e: Arrival): DerivedState {
    match e
    case Blur => s.(isFocus := false)
    case Connect(now) => s.(connected := now)
    case DeviceAttached(info) => s.(lastDeviceInfo := info, isDeviceAttached := true)
    case DeviceConnected(info) => s.(lastDeviceInfo := info, isDeviceConnected := true)
    case DeviceDisconnected(info) => s.(lastDeviceInfo := info, isDeviceConnected := false)
    case DeviceRemoved(info) => s.(lastDeviceInfo := info, isDeviceAttached := false)
    case DeviceStopped(info) => s.(lastDeviceInfo := info, isDeviceStreaming := false)
    case DeviceStreaming(info) => s.(lastDeviceInfo := info, isDeviceStreaming := true)
    case Disconnect(now) => s.(connected := now)
    case Focus => s.(isFocus := true)
    case Frame(frame) => s.(lastFrame := frame)
    case FrameEnd(t) => s.(lastFrameEnd := t)
    case Gesture(g, _) => s.(lastGesture := g)
    case Protocol(p, _) => s.(lastProtocol := p)
    case StreamingStarted(now, info) => s.(streaming := now, lastDeviceInfo := info)
    case StreamingStopped(now, info) => s.(streaming := now, lastDeviceInfo := info)
  }

  /** The events that fire without a detail. */
  predicate Bare(e: Arrival) {
    e.Blur? || e.Connect? || e.Disconnect? || e.Focus?
  }

  /** The events whose public name is the transport name unchanged. */
  predicate KeepsName(e: Arrival) {
    Bare(e) || e.Frame? || e.FrameEnd? || e.Gesture? || e.Protocol?
  }

  /** The event a handler fires. */
  function Emitted(e: Arrival): (r: Fired)
    ensures r.detail == NoDetail <==> Bare(e)
  {
    match e
    case Blur => Fired("blur", NoDetail)
    case Connect(_) => Fired("connect", NoDetail)
    case DeviceAttached(info) => Fired("device-attached", Payload(info))
    case DeviceConnected(info) => Fired("device-connected", Payload(info))
    case DeviceDisconnected(info) => Fired("device-disconnected", Payload(info))
    case DeviceRemoved(info) => Fired("device-removed", Payload(info))
    case DeviceStopped(info) => Fired("device-stopped", Payload(info))
    case DeviceStreaming(info) => Fired("device-streaming", Payload(info))
    case Disconnect(_) => Fired("disconnect", NoDetail)
    case Focus => Fired("focus", NoDetail)
    case Frame(frame) => Fired("frame", Payload(frame))
    case FrameEnd(t) => Fired("frameEnd", Payload(t))
    case Gesture(g, frame) => Fired("gesture", GestureDetail(g, frame))
    case Protocol(p, frame) => Fired("protocol", ProtocolDetail(p, frame))
    case StreamingStarted(_, info) => Fired("streaming-started", Payload(info))
    case StreamingStopped(_, info) => Fired("streaming-stopped", Payload(info))
  }

  /** The fired log a sequence of deliveries produces. */
  function FiredLog(es: seq<Arrival>): (r: seq<Fired>)
    ensures |r| == |es|
    ensures forall i :: 0 <= i < |es| ==> r[i] == Emitted(es[i])
  {
    if es == [] then [] else FiredLog(es[..|es| - 1]) + [Emitted(es[|es| - 1])]
  }

  /** The derived properties, by name. */
  datatype Field =
    | Connected | Streaming
    | IsDeviceAttached | IsDeviceConnected | IsDeviceStreaming | IsFocus
    | LastDeviceInfo | LastFrame | LastFrameEnd | LastGesture | LastProtocol

  /** The four presence flags, which are tracked independently. */
  const PresenceFlags: set<Field> := {IsDeviceAttached, IsDeviceConnected, IsDeviceStreaming, IsFocus}

  function Get(s: DerivedState, f: Field): JsValue {
    match f
    case Connected => Boolean(s.connected)
    case Streaming => Boolean(s.streaming)
    case IsDeviceAttached => Boolean(s.isDeviceAttached)
    case IsDeviceConnected => Boolean(s.isDeviceConnected)
    case IsDeviceStreaming => Boolean(s.isDeviceStreaming)
    case IsFocus => Boolean(s.isFocus)
    case LastDeviceInfo => s.lastDeviceInfo
    case LastFrame => s.lastFrame
    case LastFrameEnd => s.lastFrameEnd
    case LastGesture => s.lastGesture
    case LastProtocol => s.lastProtocol
  }

  /** The adapter's table: for each event, the fields it writes and the value
      each one receives. */
  function Effects(e: Arrival): map<Field, JsValue> {
    match e
    case Blur => map[IsFocus := Boolean(false)]
    case Connect(now) => map[Connected := Boolean(now)]
    case DeviceAttached(info) => map[LastDeviceInfo := info, IsDeviceAttached := Boolean(true)]
    case DeviceConnected(info) => map[LastDeviceInfo := info, IsDeviceConnected := Boolean(true)]
    case DeviceDisconnected(info) => map[LastDeviceInfo := info, IsDeviceConnected := Boolean(false)]
    case DeviceRemoved(info) => map[LastDeviceInfo := info, IsDeviceAttached := Boolean(false)]
    case DeviceStopped(info) => map[LastDeviceInfo := info, IsDeviceStreaming := Boolean(false)]
    case DeviceStreaming(info) => map[LastDeviceInfo := info, IsDeviceStreaming := Boolean(true)]
    case Disconnect(now) => map[Connected := Boolean(now)]
    case Focus => map[IsFocus := Boolean(true)]
    case Frame(frame) => map[LastFrame := frame]
    case FrameEnd(t) => map[LastFrameEnd := t]
    case Gesture(g, _) => map[LastGesture := g]
    case Protocol(p, _) => map[LastProtocol := p]
    case StreamingStarted(now, info) => map[Streaming := Boolean(now), LastDeviceInfo := info]
    case StreamingStopped(now, info) => map[Streaming := Boolean(now), LastDeviceInfo := info]
  }

  /** The state after the deliveries `es`, in order. */
  function Run(s: DerivedState, es: seq<Arrival>): DerivedState
    decreases |es|
  {
    if es == [] then s else Step(Run(s, es[..|es| - 1]), es[|es| - 1])
  }

  /** The value written to `f` by the most recent delivery that writes it,
      or `d` when none does. */
  function LastWrite(es: seq<Arrival>, f: Field, d: JsValue): JsValue
    decreases |es|
  {
    if es == [] then d
    else if f in Effects(es[|es| - 1]) then Effects(es[|es| - 1])[f]
    else LastWrite(es[..|es| - 1], f, d)
  }

  /** The deliveries of `es` that write `f`, in order. */
  function Governing(es: seq<Arrival>, f: Field): seq<Arrival>
    decreases |es|
  {
    if es == [] then []
    else Governing(es[..|es| - 1], f) + (if f in Effects(es[|es| - 1]) then [es[|es| - 1]] else [])
  }

  /** A handler writes exactly the fields the table names, with the table's
      values, and leaves every other field as it was. */
  lemma StepFrame(s: DerivedState, e: Arrival, f: Field)
    ensures Get(Step(s, e), f) == if f in Effects(e) then Effects(e)[f] else Get(s, f)
  {
    match f
    case Connected =>
    case Streaming =>
    case IsDeviceAttached =>
    case IsDeviceConnected =>
    case IsDeviceStreaming =>
    case IsFocus =>
    case LastDeviceInfo =>
    case LastFrame =>
    case LastFrameEnd =>
    case LastGesture =>
    case LastProtocol =>
  }

  /** No event drives two presence flags. */
  lemma PresenceFlagsIndependent(e: Arrival, f: Field, g: Field)
    requires f in PresenceFlags && g in PresenceFlags
    requires f in Effects(e) && g in Effects(e)
    ensures f == g
  {
  }

  /** After any sequence of deliveries, each field holds the value written by
      the most recent delivery that writes it, or its starting value. */
  lemma {:induction false} RunIsLastWrite(s: DerivedState, es: seq<Arrival>, f: Field)
    ensures Get(Run(s, es), f) == LastWrite(es, f, Get(s, f))
    decreases |es|
  {
    if es != [] {
      RunIsLastWrite(s, es[..|es| - 1], f);
      StepFrame(Run(s, es[..|es| - 1]), es[|es| - 1], f);
    }
  }

  /** One more handler call extends the run and the fired log by that
      delivery: with the handlers' contracts, a sequence of handler calls
      leaves the element in `Run` of the deliveries and its log extended by
      their `FiredLog`. */
  lemma HandlerExtendsRun(s: DerivedState, es: seq<Arrival>, e: Arrival)
    ensures Run(s, es + [e]) == Step(Run(s, es), e)
    ensures FiredLog(es + [e]) == FiredLog(es) + [Emitted(e)]
  {
  }

  lemma {:induction false} LastWriteGoverning(es: seq<Arrival>, f: Field, d: JsValue)
    ensures LastWrite(Governing(es, f), f, d) == LastWrite(es, f, d)
    decreases |es|
  {
    if es != [] {
      var front, last := es[..|es| - 1], es[|es| - 1];
      var g := Governing(front, f);
      LastWriteGoverning(front, f, d);
      if f in Effects(last) {
        assert Governing(es, f) == g + [last];
        assert (g + [last])[..|g|] == g;
      } else {
        assert Governing(es, f) == g;
      }
    }
  }

  /** Each field is a function of the deliveries that write it, and of
      nothing else. */
  lemma RunDependsOnlyOnGoverning(s: DerivedState, es: seq<Arrival>, f: Field)
    ensures Get(Run(s, es), f) == Get(Run(s, Governing(es, f)), f)
  {
    RunIsLastWrite(s, es, f);
    RunIsLastWrite(s, Governing(es, f), f);
    LastWriteGoverning(es, f, Get(s, f));
  }

  /** The events that drive one presence flag never drive another, so a run of
      them leaves every other presence flag as it was. */
  lemma {:induction false} PresenceEventsDisjoint(s: DerivedState, es: seq<Arrival>, f: Field, g: Field)
    requires f in PresenceFlags && g in PresenceFlags && f != g
    ensures Governing(Governing(es, f), g) == []
    ensures Get(Run(s, Governing(es, f)), g) == Get(s, g)
    decreases |es|
  {
    if es != [] {
      var front, last := es[..|es| - 1], es[|es| - 1];
      var h := Governing(front, f);
      PresenceEventsDisjoint(s, front, f, g);
      if f in Effects(last) {
        assert Governing(es, f) == h + [last];
        assert (h + [last])[..|h|] == h;
        if g in Effects(last) {
          PresenceFlagsIndependent(last, f, g);
        }
      } else {
        assert Governing(es, f) == h;
      }
    }
    RunDependsOnlyOnGoverning(s, Governing(es, f), g);
  }

  /** Device attached, then connected, then removed: the device is no longer
      attached, is still connected, and the last info is the removal's. */
  lemma AttachConnectRemove(s: DerivedState, a: JsValue, b: JsValue, c: JsValue)
    ensures var t := Run(s, [DeviceAttached(a), DeviceConnected(b), DeviceRemoved(c)]);
      !t.isDeviceAttached && t.isDeviceConnected && t.lastDeviceInfo == c
  {
  }

  /** Device attached, then streaming, then removed: removal clears only the
      attached flag. */
  lemma AttachStreamRemove(s: DerivedState, a: JsValue, b: JsValue, c: JsValue)
    ensures var t := Run(s, [DeviceAttached(a), DeviceStreaming(b), DeviceRemoved(c)]);
      !t.isDeviceAttached && t.isDeviceStreaming && t.lastDeviceInfo == c
  {
  }

  /** Public names: the transport name unchanged for the eight bare and data
      events, its hyphenated spelling for the device and streaming events. */
  lemma PublicNames(e: Arrival)
    ensures Emitted(e).name == if KeepsName(e) then TransportName(e) else Hyphenate(TransportName(e))
  {
    match e
    case DeviceAttached(_) => DeviceAttachedHyphenated(e);
    case DeviceConnected(_) => DeviceConnectedHyphenated(e);
    case DeviceDisconnected(_) => DeviceDisconnectedHyphenated(e);
    case DeviceRemoved(_) => DeviceRemovedHyphenated(e);
    case DeviceStopped(_) => DeviceStoppedHyphenated(e);
    case DeviceStreaming(_) => DeviceStreamingHyphenated(e);
    case StreamingStarted(_, _) => StreamingStartedHyphenated(e);
    case StreamingStopped(_, _) => StreamingStoppedHyphenated(e);
    case _ =>
  }

  lemma DeviceAttachedHyphenated(e: Arrival)
    requires e.DeviceAttached?
    ensures Emitted(e).name == Hyphenate(TransportName(e))
  {
    HyphenateOneCapital("device", 'A', "ttached");
    assert "device" + ['A'] + "ttached" == TransportName(e);
  }

  lemma DeviceConnectedHyphenated(e: Arrival)
    requires e.DeviceConnected?
    ensures Emitted(e).name == Hyphenate(TransportName(e))
  {
    HyphenateOneCapital("device", 'C', "onnected");
    assert "device" + ['C'] + "onnected" == TransportName(e);
  }

  lemma DeviceDisconnectedHyphenated(e: Arrival)
    requires e.DeviceDisconnected?
    ensures Emitted(e).name == Hyphenate(TransportName(e))
  {
    HyphenateOneCapital("device", 'D', "isconnected");
    assert "device" + ['D'] + "isconnected" == TransportName(e);
  }

  lemma DeviceRemovedHyphenated(e: Arrival)
    requires e.DeviceRemoved?
    ensures Emitted(e).name == Hyphenate(TransportName(e))
  {
    HyphenateOneCapital("device", 'R', "emoved");
    assert "device" + ['R'] + "emoved" == TransportName(e);
  }

  lemma DeviceStoppedHyphenated(e: Arrival)
    requires e.DeviceStopped?
    ensures Emitted(e).name == Hyphenate(TransportName(e))
  {
    HyphenateOneCapital("device", 'S', "topped");
    assert "device" + ['S'] + "topped" == TransportName(e);
  }

  lemma DeviceStreamingHyphenated(e: Arrival)
    requires e.DeviceStreaming?
    ensures Emitted(e).name == Hyphenate(TransportName(e))
  {
    HyphenateOneCapital("device", 'S', "treaming");
    assert "device" + ['S'] + "treaming" == TransportName(e);
  }

  lemma StreamingStartedHyphenated(e: Arrival)
    requires e.StreamingStarted?
    ensures Emitted(e).name == Hyphenate(TransportName(e))
  {
    HyphenateOneCapital("streaming", 'S', "tarted");
    assert "streaming" + ['S'] + "tarted" == TransportName(e);
  }

  lemma StreamingStoppedHyphenated(e: Arrival)
    requires e.StreamingStopped?
    ensures Emitted(e).name == Hyphenate(TransportName(e))
  {
    HyphenateOneCapital("streaming", 'S', "topped");
    assert "streaming" + ['S'] + "topped" == TransportName(e);
  }

  /** The hyphenated public names are all lower case: no device or
      streaming event is fired under a name with a capital letter. */
  lemma HyphenatedNamesLowerCase(e: Arrival)
    requires !KeepsName(e)
    ensures forall i :: 0 <= i < |Emitted(e).name| ==> !IsUpper(Emitted(e).name[i])
  {
    PublicNames(e);
    HyphenateLowersAll(TransportName(e));
  }

  /** `frameEnd` is the one camelCase transport name that is not hyphenated. */
  lemma FrameEndNotHyphenated(t: JsValue)
    ensures Emitted(FrameEnd(t)).name == "frameEnd"
    ensures Hyphenate(TransportName(FrameEnd(t))) == "frame-end"
  {
    assert Hyphenate("frameEnd") == "frame-end";
  }

  /** Distinct transport events are re-fired under distinct public names. */
  lemma PublicNamesDistinct(e1: Arrival, e2: Arrival)
    ensures Emitted(e1).name == Emitted(e2).name <==> TransportName(e1) == TransportName(e2)
  {
  }
}
