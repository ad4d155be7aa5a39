/**
 * HeadphoneMotionPub's throwing headphone tracker
 * (HeadphoneMotionPub/HeadphoneMotionTracker.swift). Its `Delegate` and its
 * update handler are the ones of HeadphoneMotionPub/HeadphoneTracker.swift,
 * with the delegate's state type nested in the class, so a constructed
 * tracker is the same state machine; what is new is the initializer, which
 * refuses to construct on an unsupported device or a refused authorization.
 */
module HmpHeadphoneMotionTracker {
  import opened Wrappers
  import opened Platform
  import HT = HmpHeadphoneTracker

  /** `HeadphoneMotionTracker.FatalError`; there is no case for an unknown authorization. */
  datatype FatalError = MotionNotSupported | PermissionDenied | PermissionNotDetermined | PermissionRestricted

  /** The outcome of `init() throws`. */
  datatype Construction = Constructed(tracker: HT.Tracker) | Thrown(error: FatalError)

  /**
   * `init() throws`: support is checked before authorization is read; a
   * denied, undetermined or restricted authorization throws the matching
   * error, and any other status, unknown ones included, constructs a
   * disconnected tracker with no handlers.
   */
  function Init(available: bool, status: AuthorizationStatus): (r: Construction)
    ensures r.Constructed? <==> available && (status.Authorized? || status.Unrecognized?)
    ensures r.Constructed? ==> r.tracker == HT.Init()
    ensures !available ==> r == Thrown(MotionNotSupported)
    ensures available && status.Denied? ==> r == Thrown(PermissionDenied)
    ensures available && status.NotDetermined? ==> r == Thrown(PermissionNotDetermined)
    ensures available && status.Restricted? ==> r == Thrown(PermissionRestricted)
  {
    if !available then Thrown(MotionNotSupported)
    else
      match status
      case Denied => Thrown(PermissionDenied)
      case NotDetermined => Thrown(PermissionNotDetermined)
      case Restricted => Thrown(PermissionRestricted)
      case _ => Constructed(HT.Init())
  }

  /** An unsupported device throws `motionNotSupported` whatever the authorization would have been. */
  lemma SupportCheckedFirst(s1: AuthorizationStatus, s2: AuthorizationStatus)
    ensures Init(false, s1) == Init(false, s2) == Thrown(MotionNotSupported)
  {
  }

  /**
   * Where AirSense's tracker turns an undetermined authorization into a
   * fatal state but still tracks, this one refuses to construct; only an
   * authorized, supported device gives a tracker in both.
   */
  lemma UndeterminedThrows()
    ensures Init(true, NotDetermined) == Thrown(PermissionNotDetermined)
    ensures Init(true, Authorized).Constructed?
  {
  }

  /** A constructed tracker starts disconnected, and a state handler installed on it first hears `disconnected`. */
  lemma ConstructedStartsDisconnected(status: AuthorizationStatus, h: HT.HandlerId)
    requires Init(true, status).Constructed?
    ensures Init(true, status).tracker.state == HT.Disconnected
    ensures HT.Handle(Init(true, status).tracker, HT.SetStateHandler(Some(h))).calls
         == [HT.StateCall(h, HT.Disconnected, HT.HandlerChanged)]
  {
  }
}
