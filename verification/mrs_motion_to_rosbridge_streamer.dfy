/**
 * MotionRosStreamer's motion streamer (MotionRosStreamer/MotionToRosbridgeStreamer.swift):
 * HeadphoneMotionPub's streamer with one more setting, `excludeGravity`,
 * which chooses whether the published linear acceleration is the user
 * acceleration alone or has gravity added. The target's own copies of the
 * utilities and of `WebSocketTaskController` are not part of this model;
 * HeadphoneMotionPub's, which this file's calls match, stand in for them.
 */
module MrsMotionToRosbridgeStreamer {
  import opened Wrappers
  import opened SwiftNumerics
  import opened Platform
  import opened Json
  import opened HmpRosbridgeUtilities
  import opened RosbridgeSending
  import opened HmpStreamerSending
  import HWS = HmpWebSocketTaskController
  import Hmp = HmpMotionToRosbridgeStreamer
  import RS = MrsRosbridgeStreamer

  /** The streamer's controller and settings; gravity is included until the setting changes. */
  datatype Streamer = Streamer(
    controller: HWS.Controller,
    deviceMotionTopic: string,
    deviceMotionFrameId: string,
    headphoneMotionTopic: string,
    headphoneMotionFrameId: string,
    excludeGravity: bool)

  predicate Valid(s: Streamer) {
    HWS.Valid(s.controller)
  }

  /** `init()`: a fresh controller, empty topics and frame ids, gravity included. */
  function Init(): (s: Streamer)
    ensures Valid(s) && s.controller == HWS.Init() && !s.excludeGravity
    ensures s.deviceMotionTopic == "" && s.headphoneMotionTopic == ""
    ensures s.deviceMotionFrameId == "" && s.headphoneMotionFrameId == ""
  {
    Streamer(HWS.Init(), "", "", "", "", false)
  }

  // ---------------------------------------------------------------------------
  // Messages

  /**
   * The `RosImu` that `sendMotionPublishRequest(topic:frameId:motion:)`
   * builds, with HeadphoneMotionPub's `RosImu` standing in: the acceleration
   * the gravity setting selects, and the stamp from `RosTime(timeInterval:)`
   * as written, whose sub-second field is 0.
   */
  function MotionImu(motion: DeviceMotion, frameId: string, excludeGravity: bool): (r: RosImu)
    ensures r.header == RosHeader(0, RosTime(Trunc(motion.timestamp), 0), frameId)
    ensures r.orientation == QuaternionFrom(motion.attitude)
    ensures r.angularVelocity == Vector3From(motion.rotationRate)
    ensures excludeGravity ==> r.linearAcceleration == Vector3From(motion.userAcceleration)
    ensures !excludeGravity ==> r.linearAcceleration == Vector3From(Add(motion.userAcceleration, motion.gravity))
  {
    RosImu(header := MakeHeader(stamp := TimeFromIntervalAsWritten(motion.timestamp), frameId := frameId),
           orientation := QuaternionFrom(motion.attitude),
           angularVelocity := Vector3From(motion.rotationRate),
           linearAcceleration := Vector3From(RS.Acceleration(motion, excludeGravity)))
  }

  /** Excluding gravity gives HeadphoneMotionPub's message exactly. */
  lemma ExcludingGravityIsHeadphoneMotionPubImu(motion: DeviceMotion, frameId: string)
    ensures MotionImu(motion, frameId, true) == Hmp.MotionImu(motion, frameId)
  {
  }

  /**
   * How the streamer turns a sample, a frame id and the gravity setting into
   * a message tree. The events below are stated for any such builder;
   * `SourceMessage` is the one the file uses.
   */
  type MotionMessage = (DeviceMotion, string, bool) -> Json

  function SourceMessage(): MotionMessage {
    (motion, frameId, excludeGravity) => ImuJson(MotionImu(motion, frameId, excludeGravity))
  }

  /** The published linear acceleration is the one the gravity setting selects; the rest is as in HeadphoneMotionPub. */
  lemma SourceMessageContents(motion: DeviceMotion, frameId: string, excludeGravity: bool)
    ensures var j := SourceMessage()(motion, frameId, excludeGravity);
      && Get(j, "header") == Some(HeaderJson(RosHeader(0, RosTime(Trunc(motion.timestamp), 0), frameId)))
      && Get(j, "orientation") == Some(QuaternionJson(QuaternionFrom(motion.attitude)))
      && Get(j, "linear_acceleration") == Some(Vector3Json(Vector3From(RS.Acceleration(motion, excludeGravity))))
    ensures SourceMessage()(motion, frameId, true) == Hmp.SourceMessage()(motion, frameId)
  {
  }

  // ---------------------------------------------------------------------------
  // Events

  /** What reaches the streamer: a setting assigned, a controller operation, or a tracker's new value. */
  datatype Event =
    | SetDeviceMotionTopic(topic: string)
    | SetDeviceMotionFrameId(frameId: string)
    | SetHeadphoneMotionTopic(topic: string)
    | SetHeadphoneMotionFrameId(frameId: string)
    | SetExcludeGravity(flag: bool)
    | ControllerInput(input: HWS.Input)
    | DeviceSample(motion: Option<DeviceMotion>)
    | HeadphoneSample(motion: Option<DeviceMotion>)

  datatype Output = Output(streamer: Streamer, frames: seq<Frame<Request>>)

  /**
   * One event. A topic's `didSet` runs on every assignment, so assigning the
   * topic it already has advertises it again. A tracker publishing `nil`
   * sends nothing; the gravity setting only affects later samples.
   */
  function Handle(encode: AdvertisingEncoder, message: MotionMessage, s: Streamer, e: Event): (o: Output)
    requires Valid(s)
    ensures Valid(o.streamer)
    ensures AddressedBelow(o.frames, o.streamer.controller.created)
    ensures s.controller.created <= o.streamer.controller.created
    ensures !e.ControllerInput? ==> o.streamer.controller == s.controller
    ensures !e.ControllerInput? && s.controller.task.None? ==> o.frames == []
  {
    match e
    case SetDeviceMotionTopic(topic) => Output(s.(deviceMotionTopic := topic), Advertise(encode, s.controller, topic))
    case SetDeviceMotionFrameId(frameId) => Output(s.(deviceMotionFrameId := frameId), [])
    case SetHeadphoneMotionTopic(topic) => Output(s.(headphoneMotionTopic := topic), Advertise(encode, s.controller, topic))
    case SetHeadphoneMotionFrameId(frameId) => Output(s.(headphoneMotionFrameId := frameId), [])
    case SetExcludeGravity(flag) => Output(s.(excludeGravity := flag), [])
    case ControllerInput(input) =>
      var u := HWS.Step(s.controller, input);
      Output(s.(controller := u.controller),
             OnPublished(encode, u.controller, s.deviceMotionTopic, s.headphoneMotionTopic, u.published))
    case DeviceSample(motion) =>
      Output(s, if motion.Some? then
                  Publish(encode, s.controller, s.deviceMotionTopic, message(motion.value, s.deviceMotionFrameId, s.excludeGravity))
                else [])
    case HeadphoneSample(motion) =>
      Output(s, if motion.Some? then
                  Publish(encode, s.controller, s.headphoneMotionTopic, message(motion.value, s.headphoneMotionFrameId, s.excludeGravity))
                else [])
  }

  /** Handles the events in order, collecting every frame sent. */
  function Run(encode: AdvertisingEncoder, message: MotionMessage, s: Streamer, events: seq<Event>): (o: Output)
    requires Valid(s)
    ensures Valid(o.streamer)
    decreases |events|
  {
    if |events| == 0 then Output(s, [])
    else
      var first := Handle(encode, message, s, events[0]);
      var rest := Run(encode, message, first.streamer, events[1..]);
      Output(rest.streamer, first.frames + rest.frames)
  }

  // ---------------------------------------------------------------------------
  // Relation to HeadphoneMotionPub's streamer

  /** The streamer without its gravity setting. */
  function Forget(s: Streamer): (h: Hmp.Streamer)
    ensures h.controller == s.controller
    ensures h.deviceMotionTopic == s.deviceMotionTopic && h.headphoneMotionTopic == s.headphoneMotionTopic
    ensures h.deviceMotionFrameId == s.deviceMotionFrameId && h.headphoneMotionFrameId == s.headphoneMotionFrameId
  {
    Hmp.Streamer(s.controller, s.deviceMotionTopic, s.deviceMotionFrameId, s.headphoneMotionTopic, s.headphoneMotionFrameId)
  }

  /** The same event for HeadphoneMotionPub's streamer, which has no gravity setting. */
  function Translate(e: Event): (r: Option<Hmp.Event>)
    ensures r.None? <==> e.SetExcludeGravity?
  {
    match e
    case SetDeviceMotionTopic(topic) => Some(Hmp.SetDeviceMotionTopic(topic))
    case SetDeviceMotionFrameId(frameId) => Some(Hmp.SetDeviceMotionFrameId(frameId))
    case SetHeadphoneMotionTopic(topic) => Some(Hmp.SetHeadphoneMotionTopic(topic))
    case SetHeadphoneMotionFrameId(frameId) => Some(Hmp.SetHeadphoneMotionFrameId(frameId))
    case SetExcludeGravity(_) => None
    case ControllerInput(input) => Some(Hmp.ControllerInput(input))
    case DeviceSample(motion) => Some(Hmp.DeviceSample(motion))
    case HeadphoneSample(motion) => Some(Hmp.HeadphoneSample(motion))
  }

  /**
   * Apart from the gravity setting, the two streamers behave alike: every
   * other event sends the same frames and leaves the same controller and
   * settings, where HeadphoneMotionPub's message builder is this one's at the
   * current gravity setting.
   */
  lemma BehavesAsHeadphoneMotionPub(encode: AdvertisingEncoder, message: MotionMessage, s: Streamer, e: Event)
    requires Valid(s) && !e.SetExcludeGravity?
    ensures var o := Handle(encode, message, s, e);
      var h := Hmp.Handle(encode, (m, f) => message(m, f, s.excludeGravity), Forget(s), Translate(e).value);
      && o.frames == h.frames
      && Forget(o.streamer) == h.streamer
      && o.streamer.excludeGravity == s.excludeGravity
  {
  }

  // ---------------------------------------------------------------------------
  // Properties

  /** Whatever happens, every frame goes to a task the controller had made by the end of the run. */
  lemma {:induction false} RunAddressesMadeTasks(encode: AdvertisingEncoder, message: MotionMessage, s: Streamer, events: seq<Event>)
    requires Valid(s)
    ensures AddressedBelow(Run(encode, message, s, events).frames, Run(encode, message, s, events).streamer.controller.created)
    ensures s.controller.created <= Run(encode, message, s, events).streamer.controller.created
    decreases |events|
  {
    if |events| > 0 {
      var first := Handle(encode, message, s, events[0]);
      var rest := Run(encode, message, first.streamer, events[1..]);
      RunAddressesMadeTasks(encode, message, first.streamer, events[1..]);
      var all := first.frames + rest.frames;
      forall k | 0 <= k < |all| ensures all[k].taskId < rest.streamer.controller.created {
        if k < |first.frames| {
          assert all[k] == first.frames[k];
        } else {
          assert all[k] == rest.frames[k - |first.frames|];
        }
      }
    }
  }

  /** When the current task opens, both topics are advertised to it, the device's first. */
  lemma OpeningAdvertisesBothTopics(encode: AdvertisingEncoder, message: MotionMessage, s: Streamer)
    requires Valid(s) && s.controller.task.Some?
    ensures var o := Handle(encode, message, s, ControllerInput(HWS.Socket(s.controller.task.value.id, HWS.DidOpen)));
      && |o.frames| == 2
      && o.frames[0].request == Advertising(AdvertiseRequest(s.deviceMotionTopic, ImuType))
      && o.frames[1].request == Advertising(AdvertiseRequest(s.headphoneMotionTopic, ImuType))
      && o.frames[0].taskId == s.controller.task.value.id
      && o.frames[1].taskId == s.controller.task.value.id
  {
    var u := HWS.OnSocketEvent(s.controller, s.controller.task.value.id, HWS.DidOpen);
    assert u.published == [HWS.HasTask(HWS.Connected(s.controller.task.value.url))];
  }

  /** Switching gravity on or off sends nothing; the next sample uses the new setting. */
  lemma GravitySettingAppliesToLaterSamples(encode: AdvertisingEncoder, message: MotionMessage, s: Streamer, flag: bool, m: DeviceMotion)
    requires Valid(s) && s.controller.task.Some?
    requires encode(Publishing(PublishRequest(s.deviceMotionTopic, message(m, s.deviceMotionFrameId, flag)))).Some?
    ensures var o := Run(encode, message, s, [SetExcludeGravity(flag), DeviceSample(Some(m))]);
      && o.streamer == s.(excludeGravity := flag)
      && |o.frames| == 1
      && o.frames[0].request == Publishing(PublishRequest(s.deviceMotionTopic, message(m, s.deviceMotionFrameId, flag)))
      && o.frames[0].taskId == s.controller.task.value.id
  {
    var first := Handle(encode, message, s, SetExcludeGravity(flag));
    assert first == Output(s.(excludeGravity := flag), []);
    var second := Handle(encode, message, first.streamer, DeviceSample(Some(m)));
    assert [SetExcludeGravity(flag), DeviceSample(Some(m))][1..] == [DeviceSample(Some(m))];
    assert Run(encode, message, first.streamer, [DeviceSample(Some(m))]).frames == second.frames;
  }
}
