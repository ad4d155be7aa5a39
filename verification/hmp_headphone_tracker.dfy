/**
 * HeadphoneMotionPub's headphone tracker (HeadphoneMotionPub/HeadphoneTracker.swift):
 * a delegate that records whether the headphones are connected and reports
 * every change to a state handler, and a wrapper that forwards the motion
 * manager's samples and errors to a motion handler and an error handler.
 * Handlers are closures in the app; here each is a number naming it, and the
 * calls it receives are the output. HeadphoneMotionPub/HeadphoneMotionTracker.swift
 * holds the same delegate and dispatch behind a throwing initializer.
 */
module HmpHeadphoneTracker {
  import opened Wrappers
  import opened Platform

  /** `HeadphoneTrackerState`. */
  datatype ConnectionState = Disconnected | Connected

  /** A handler the app installed, named by a number. */
  type HandlerId = nat

  /** A call made to one of the handlers. */
  datatype Call =
    | StateCall(handler: HandlerId, state: ConnectionState, reason: string)
    | MotionCall(handler: HandlerId, motion: DeviceMotion)
    | ErrorCall(handler: HandlerId, error: PlatformError)

  /** The delegate's state and the three handler slots. */
  datatype Tracker = Tracker(
    state: ConnectionState,
    stateHandler: Option<HandlerId>,
    motionHandler: Option<HandlerId>,
    errorHandler: Option<HandlerId>)

  const HandlerChanged: string := "StateHandler changed"
  const HeadphoneConnected: string := "Headphone connected"
  const HeadphoneDisconnected: string := "Headphone disconnected"

  /** `init()`: disconnected, no handlers, motion updates requested. */
  function Init(): (t: Tracker)
    ensures t.state == Disconnected
    ensures t.stateHandler.None? && t.motionHandler.None? && t.errorHandler.None?
  {
    Tracker(Disconnected, None, None, None)
  }

  /** What reaches the tracker: a handler assignment, a delegate callback, or the update handler's arguments. */
  datatype Event =
    | SetStateHandler(stateHandler: Option<HandlerId>)
    | SetMotionHandler(motionHandler: Option<HandlerId>)
    | SetErrorHandler(errorHandler: Option<HandlerId>)
    | DidConnect
    | DidDisconnect
    | Update(motion: Option<DeviceMotion>, error: Option<PlatformError>)

  datatype Output = Output(tracker: Tracker, calls: seq<Call>)

  /** `stateHandler?(state, reason)`. */
  function Notify(handler: Option<HandlerId>, state: ConnectionState, reason: string): (c: seq<Call>)
    ensures handler.None? ==> c == []
    ensures handler.Some? ==> c == [StateCall(handler.value, state, reason)]
  {
    if handler.Some? then [StateCall(handler.value, state, reason)] else []
  }

  /** `updateState(newState:reason:)`: the state changes, then the handler hears the new state. */
  function UpdateState(t: Tracker, newState: ConnectionState, reason: string): (o: Output)
    ensures o.tracker == t.(state := newState)
    ensures o.calls == Notify(t.stateHandler, newState, reason)
  {
    Output(t.(state := newState), Notify(t.stateHandler, newState, reason))
  }

  /**
   * One event. Assigning a state handler calls it at once with the current
   * state; a connection callback updates the state and tells the handler; an
   * update hands its motion to the motion handler and then its error to the
   * error handler, each only if present.
   */
  function Handle(t: Tracker, e: Event): (o: Output)
    ensures e.SetStateHandler? ==> o.tracker == t.(stateHandler := e.stateHandler)
    ensures e.SetStateHandler? ==> o.calls == Notify(e.stateHandler, t.state, HandlerChanged)
    ensures e.DidConnect? ==> o.tracker == t.(state := Connected)
    ensures e.DidConnect? ==> o.calls == Notify(t.stateHandler, Connected, HeadphoneConnected)
    ensures e.DidDisconnect? ==> o.tracker == t.(state := Disconnected)
    ensures e.DidDisconnect? ==> o.calls == Notify(t.stateHandler, Disconnected, HeadphoneDisconnected)
    ensures e.Update? ==> o.tracker == t
    ensures e.Update? ==>
      |o.calls| == (if e.motion.Some? && t.motionHandler.Some? then 1 else 0) + (if e.error.Some? && t.errorHandler.Some? then 1 else 0)
    ensures e.Update? && e.motion.Some? && t.motionHandler.Some? ==> o.calls[0] == MotionCall(t.motionHandler.value, e.motion.value)
    ensures e.Update? && e.error.Some? && t.errorHandler.Some? ==> o.calls[|o.calls| - 1] == ErrorCall(t.errorHandler.value, e.error.value)
    ensures forall k :: 0 <= k < |o.calls| ==> o.calls[k].StateCall? ==> o.calls[k].state == o.tracker.state
  {
    match e
    case SetStateHandler(h) => Output(t.(stateHandler := h), Notify(h, t.state, HandlerChanged))
    case SetMotionHandler(h) => Output(t.(motionHandler := h), [])
    case SetErrorHandler(h) => Output(t.(errorHandler := h), [])
    case DidConnect => UpdateState(t, Connected, HeadphoneConnected)
    case DidDisconnect => UpdateState(t, Disconnected, HeadphoneDisconnected)
    case Update(motion, error) =>
      var m := if motion.Some? && t.motionHandler.Some? then [MotionCall(t.motionHandler.value, motion.value)] else [];
      var x := if error.Some? && t.errorHandler.Some? then [ErrorCall(t.errorHandler.value, error.value)] else [];
      assert forall k :: 0 <= k < |m + x| ==> (m + x)[k] == if k < |m| then m[k] else x[k - |m|];
      Output(t, m + x)
  }

  /** A callback carrying both a sample and an error reaches both handlers, the motion handler first. */
  lemma MotionBeforeError(t: Tracker, m: DeviceMotion, err: PlatformError)
    requires t.motionHandler.Some? && t.errorHandler.Some?
    ensures Handle(t, Update(Some(m), Some(err))).calls == [MotionCall(t.motionHandler.value, m), ErrorCall(t.errorHandler.value, err)]
  {
  }

  function Run(t: Tracker, events: seq<Event>): (o: Output)
    decreases |events|
  {
    if |events| == 0 then Output(t, [])
    else
      var first := Handle(t, events[0]);
      var rest := Run(first.tracker, events[1..]);
      Output(rest.tracker, first.calls + rest.calls)
  }

  /** Running one more event is handling it after the others. */
  lemma {:induction false} RunSnoc(t: Tracker, events: seq<Event>, e: Event)
    ensures Run(t, events + [e]).tracker == Handle(Run(t, events).tracker, e).tracker
    ensures Run(t, events + [e]).calls == Run(t, events).calls + Handle(Run(t, events).tracker, e).calls
    decreases |events|
  {
    if |events| > 0 {
      assert (events + [e])[1..] == events[1..] + [e];
      RunSnoc(Handle(t, events[0]).tracker, events[1..], e);
    }
  }

  /** The connection state after some events, read from the end: the last connection callback, if any. */
  function LastConnection(initial: ConnectionState, events: seq<Event>): ConnectionState
    decreases |events|
  {
    if |events| == 0 then initial
    else
      match events[|events| - 1]
      case DidConnect => Connected
      case DidDisconnect => Disconnected
      case _ => LastConnection(initial, events[..|events| - 1])
  }

  /** The delegate's state is what the most recent connection callback said. */
  lemma {:induction false} RunStateIsLastConnection(t: Tracker, events: seq<Event>)
    ensures Run(t, events).tracker.state == LastConnection(t.state, events)
    decreases |events|
  {
    if |events| > 0 {
      var front := events[..|events| - 1];
      var e := events[|events| - 1];
      assert events == front + [e];
      RunStateIsLastConnection(t, front);
      RunSnoc(t, front, e);
    }
  }

  /** A newly installed state handler hears the current state at once, then each change, such as a disconnection. */
  lemma NewHandlerHearsCurrentState(t: Tracker, h: HandlerId)
    ensures var o := Run(t, [SetStateHandler(Some(h)), DidDisconnect]);
      o.calls == [StateCall(h, t.state, HandlerChanged), StateCall(h, Disconnected, HeadphoneDisconnected)]
  {
    var first := Handle(t, SetStateHandler(Some(h)));
    assert [SetStateHandler(Some(h)), DidDisconnect][1..] == [DidDisconnect];
    assert Run(first.tracker, [DidDisconnect]).calls == Handle(first.tracker, DidDisconnect).calls;
  }
}
