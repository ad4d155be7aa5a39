/**
 * AirSense's headphone tracker (AirSense/HeadphoneTracker.swift): the state
 * chosen at start-up from the device's support for headphone motion and the
 * app's authorization, and how the connection callbacks and motion updates
 * change the published state and motion. Support and authorization are
 * inputs; callbacks arrive only once tracking has started, because only then
 * is the tracker the manager's delegate and update handler.
 */
module AirSenseHeadphoneTracker {
  import opened Wrappers
  import opened Platform

  /** `HeadphoneTracker.FatalError`. */
  datatype FatalError = NotSupported | PermissionDenied | PermissionNotDetermined | PermissionRestricted | PermissionUnknown

  /** `HeadphoneTracker.NormalState`. */
  datatype NormalState = Disconnected | Connected

  /** `HeadphoneTracker.State`. */
  datatype State = Normal(normal: NormalState) | Fatal(error: FatalError)

  /** The published state and motion, and whether `startTracking()` ran. */
  datatype Tracker = Tracker(state: State, motion: Option<DeviceMotion>, tracking: bool)

  /**
   * `init()`. Without headphone motion the tracker is unsupported whatever
   * the authorization. Denied, restricted and unknown authorizations are
   * fatal and track nothing; an undetermined one is fatal too, yet tracking
   * starts; only an authorized app starts `normal(disconnected)`.
   */
  function Init(available: bool, status: AuthorizationStatus): (t: Tracker)
    ensures t.motion == None
    ensures t.tracking <==> available && (status.Authorized? || status.NotDetermined?)
    ensures t.state.Normal? <==> available && status.Authorized?
    ensures t.state.Normal? ==> t.state.normal == Disconnected
    ensures !available ==> t.state == Fatal(NotSupported)
    ensures available && status.Denied? ==> t.state == Fatal(PermissionDenied)
    ensures available && status.NotDetermined? ==> t.state == Fatal(PermissionNotDetermined)
    ensures available && status.Restricted? ==> t.state == Fatal(PermissionRestricted)
    ensures available && status.Unrecognized? ==> t.state == Fatal(PermissionUnknown)
  {
    var initial := Tracker(Normal(Disconnected), None, false);
    if !available then initial.(state := Fatal(NotSupported))
    else
      match status
      case Denied => initial.(state := Fatal(PermissionDenied))
      case NotDetermined => initial.(state := Fatal(PermissionNotDetermined), tracking := true)
      case Restricted => initial.(state := Fatal(PermissionRestricted))
      case Authorized => initial.(state := Normal(Disconnected), tracking := true)
      case Unrecognized(_) => initial.(state := Fatal(PermissionUnknown))
  }

  /** What reaches a tracking tracker: the delegate callbacks and the update handler's arguments. */
  datatype Event =
    | DidConnect
    | DidDisconnect
    | MotionUpdate(motion: Option<DeviceMotion>, error: Option<PlatformError>)

  /**
   * One event. Connecting sets `normal(connected)` and keeps the motion;
   * disconnecting sets `normal(disconnected)` and clears it; an update
   * stores its motion, `nil` included, and its error is dropped.
   */
  function Handle(t: Tracker, e: Event): (r: Tracker)
    ensures r.tracking == t.tracking
    ensures !t.tracking ==> r == t
    ensures t.tracking && e.DidConnect? ==> r.state == Normal(Connected) && r.motion == t.motion
    ensures t.tracking && e.DidDisconnect? ==> r.state == Normal(Disconnected) && r.motion == None
    ensures t.tracking && e.MotionUpdate? ==> r.state == t.state && r.motion == e.motion
  {
    if !t.tracking then t
    else
      match e
      case DidConnect => t.(state := Normal(Connected))
      case DidDisconnect => t.(state := Normal(Disconnected), motion := None)
      case MotionUpdate(motion, _) => t.(motion := motion)
  }

  function Run(t: Tracker, events: seq<Event>): (r: Tracker)
    decreases |events|
  {
    if |events| == 0 then t else Run(Handle(t, events[0]), events[1..])
  }

  /** Running one more event is handling it after the others. */
  lemma {:induction false} RunSnoc(t: Tracker, events: seq<Event>, e: Event)
    ensures Run(t, events + [e]) == Handle(Run(t, events), e)
    decreases |events|
  {
    if |events| > 0 {
      assert (events + [e])[1..] == events[1..] + [e];
      RunSnoc(Handle(t, events[0]), events[1..], e);
    }
  }

  /**
   * The motion a tracking tracker shows after some events, read from the
   * end: the last update's motion, unless a disconnection came after it.
   */
  function LastMotion(initial: Option<DeviceMotion>, events: seq<Event>): Option<DeviceMotion>
    decreases |events|
  {
    if |events| == 0 then initial
    else
      match events[|events| - 1]
      case DidDisconnect => None
      case MotionUpdate(motion, _) => motion
      case DidConnect => LastMotion(initial, events[..|events| - 1])
  }

  /** Likewise the state: the last connection callback decides it, if there was one. */
  function LastState(initial: State, events: seq<Event>): State
    decreases |events|
  {
    if |events| == 0 then initial
    else
      match events[|events| - 1]
      case DidConnect => Normal(Connected)
      case DidDisconnect => Normal(Disconnected)
      case MotionUpdate(_, _) => LastState(initial, events[..|events| - 1])
  }

  /** A tracking tracker's state and motion are what its most recent callbacks say. */
  lemma {:induction false} RunShowsLatest(t: Tracker, events: seq<Event>)
    requires t.tracking
    ensures Run(t, events).motion == LastMotion(t.motion, events)
    ensures Run(t, events).state == LastState(t.state, events)
    ensures Run(t, events).tracking
    decreases |events|
  {
    if |events| > 0 {
      var front := events[..|events| - 1];
      assert events == front + [events[|events| - 1]];
      RunShowsLatest(t, front);
      RunSnoc(t, front, events[|events| - 1]);
    }
  }

  /** A tracker that never started tracking keeps its initial state and no motion, whatever happens. */
  lemma {:induction false} UntrackedIsFinal(t: Tracker, events: seq<Event>)
    requires !t.tracking
    ensures Run(t, events) == t
    decreases |events|
  {
    if |events| > 0 {
      UntrackedIsFinal(Handle(t, events[0]), events[1..]);
    }
  }

  /**
   * An undetermined authorization still starts tracking, so the first
   * connection replaces the fatal state with `normal(connected)`.
   */
  lemma UndeterminedRecoversOnConnect()
    ensures Init(true, NotDetermined).state == Fatal(PermissionNotDetermined)
    ensures Handle(Init(true, NotDetermined), DidConnect).state == Normal(Connected)
  {
  }
}
