/**
 * HeadphoneMotionPub's streamer (HeadphoneMotionPub/MotionToRosbridgeStreamer.swift):
 * two motion topics, the device's and the headphones', each advertised as
 * `sensor_msgs/Imu` when it is assigned and again whenever the controller
 * reports `hasTask(connected)`, and each tracker sample published on its
 * topic. The trackers are sources of events; their own logic is modelled
 * elsewhere.
 */
module HmpMotionToRosbridgeStreamer {
  import opened Wrappers
  import opened SwiftNumerics
  import opened Platform
  import opened Json
  import opened HmpRosbridgeUtilities
  import opened RosbridgeSending
  import opened HmpStreamerSending
  import HWS = HmpWebSocketTaskController

  /** The streamer's controller and settings. */
  datatype Streamer = Streamer(
    controller: HWS.Controller,
    deviceMotionTopic: string,
    deviceMotionFrameId: string,
    headphoneMotionTopic: string,
    headphoneMotionFrameId: string)

  predicate Valid(s: Streamer) {
    HWS.Valid(s.controller)
  }

  /** `init()`: a fresh controller, empty topics and frame ids. */
  function Init(): (s: Streamer)
    ensures Valid(s) && s.controller == HWS.Init()
    ensures s.deviceMotionTopic == "" && s.headphoneMotionTopic == ""
    ensures s.deviceMotionFrameId == "" && s.headphoneMotionFrameId == ""
  {
    Streamer(HWS.Init(), "", "", "", "")
  }

  // ---------------------------------------------------------------------------
  // Messages

  /**
   * The `RosImu` that `sendMotionPublishRequest(topic:frameId:motion:)`
   * builds: the user acceleration alone, without gravity, and the stamp
   * from `RosTime(timeInterval:)` as written, whose sub-second field is 0.
   */
  function MotionImu(motion: DeviceMotion, frameId: string): (r: RosImu)
    ensures r.header == RosHeader(0, RosTime(Trunc(motion.timestamp), 0), frameId)
    ensures r.orientation == QuaternionFrom(motion.attitude)
    ensures r.angularVelocity == Vector3From(motion.rotationRate)
    ensures r.linearAcceleration == Vector3From(motion.userAcceleration)
  {
    RosImu(header := MakeHeader(stamp := TimeFromIntervalAsWritten(motion.timestamp), frameId := frameId),
           orientation := QuaternionFrom(motion.attitude),
           angularVelocity := Vector3From(motion.rotationRate),
           linearAcceleration := Vector3From(motion.userAcceleration))
  }

  /**
   * How the streamer turns a sample and a frame id into a message tree. The
   * events below are stated for any such builder; `SourceMessage` is the one
   * the file uses.
   */
  type MotionMessage = (DeviceMotion, string) -> Json

  function SourceMessage(): MotionMessage {
    (motion, frameId) => ImuJson(MotionImu(motion, frameId))
  }

  /**
   * The published message carries the sample's whole seconds (the
   * sub-second field is 0), the frame id, the attitude, the rotation rate
   * and the user acceleration, and says that no covariance is known.
   */
  lemma SourceMessageContents(motion: DeviceMotion, frameId: string)
    ensures var j := SourceMessage()(motion, frameId);
      && Get(j, "header") == Some(HeaderJson(RosHeader(0, RosTime(Trunc(motion.timestamp), 0), frameId)))
      && Get(j, "orientation") == Some(QuaternionJson(QuaternionFrom(motion.attitude)))
      && Get(j, "angular_velocity") == Some(Vector3Json(Vector3From(motion.rotationRate)))
      && Get(j, "linear_acceleration") == Some(Vector3Json(Vector3From(motion.userAcceleration)))
      && Get(j, "orientation_covariance") == Some(RealArray(NotProvidedCovariance))
  {
  }

  // ---------------------------------------------------------------------------
  // Events

  /** What reaches the streamer: a setting assigned, a controller operation, or a tracker's new value. */
  datatype Event =
    | SetDeviceMotionTopic(topic: string)
    | SetDeviceMotionFrameId(frameId: string)
    | SetHeadphoneMotionTopic(topic: string)
    | SetHeadphoneMotionFrameId(frameId: string)
    | ControllerInput(input: HWS.Input)
    | DeviceSample(motion: Option<DeviceMotion>)
    | HeadphoneSample(motion: Option<DeviceMotion>)

  datatype Output = Output(streamer: Streamer, frames: seq<Frame<Request>>)

  /**
   * One event. A topic's `didSet` runs on every assignment, so assigning the
   * topic it already has advertises it again. A tracker publishing `nil`
   * sends nothing.
   */
  function Handle(encode: AdvertisingEncoder, message: MotionMessage, s: Streamer, e: Event): (o: Output)
    requires Valid(s)
    ensures Valid(o.streamer)
    ensures AddressedBelow(o.frames, o.streamer.controller.created)
    ensures s.controller.created <= o.streamer.controller.created
    ensures !e.ControllerInput? ==> o.streamer.controller == s.controller
    ensures !e.ControllerInput? && s.controller.task.None? ==> o.frames == []
  {
    match e
    case SetDeviceMotionTopic(topic) => Output(s.(deviceMotionTopic := topic), Advertise(encode, s.controller, topic))
    case SetDeviceMotionFrameId(frameId) => Output(s.(deviceMotionFrameId := frameId), [])
    case SetHeadphoneMotionTopic(topic) => Output(s.(headphoneMotionTopic := topic), Advertise(encode, s.controller, topic))
    case SetHeadphoneMotionFrameId(frameId) => Output(s.(headphoneMotionFrameId := frameId), [])
    case ControllerInput(input) =>
      var u := HWS.Step(s.controller, input);
      Output(s.(controller := u.controller),
             OnPublished(encode, u.controller, s.deviceMotionTopic, s.headphoneMotionTopic, u.published))
    case DeviceSample(motion) =>
      Output(s, if motion.Some? then Publish(encode, s.controller, s.deviceMotionTopic, message(motion.value, s.deviceMotionFrameId)) else [])
    case HeadphoneSample(motion) =>
      Output(s, if motion.Some? then Publish(encode, s.controller, s.headphoneMotionTopic, message(motion.value, s.headphoneMotionFrameId)) else [])
  }

  /** Handles the events in order, collecting every frame sent. */
  function Run(encode: AdvertisingEncoder, message: MotionMessage, s: Streamer, events: seq<Event>): (o: Output)
    requires Valid(s)
    ensures Valid(o.streamer)
    decreases |events|
  {
    if |events| == 0 then Output(s, [])
    else
      var first := Handle(encode, message, s, events[0]);
      var rest := Run(encode, message, first.streamer, events[1..]);
      Output(rest.streamer, first.frames + rest.frames)
  }

  // ---------------------------------------------------------------------------
  // Properties

  /** Whatever happens, every frame goes to a task the controller had made by the end of the run. */
  lemma {:induction false} RunAddressesMadeTasks(encode: AdvertisingEncoder, message: MotionMessage, s: Streamer, events: seq<Event>)
    requires Valid(s)
    ensures AddressedBelow(Run(encode, message, s, events).frames, Run(encode, message, s, events).streamer.controller.created)
    ensures s.controller.created <= Run(encode, message, s, events).streamer.controller.created
    decreases |events|
  {
    if |events| > 0 {
      var first := Handle(encode, message, s, events[0]);
      var rest := Run(encode, message, first.streamer, events[1..]);
      RunAddressesMadeTasks(encode, message, first.streamer, events[1..]);
      var all := first.frames + rest.frames;
      forall k | 0 <= k < |all| ensures all[k].taskId < rest.streamer.controller.created {
        if k < |first.frames| {
          assert all[k] == first.frames[k];
        } else {
          assert all[k] == rest.frames[k - |first.frames|];
        }
      }
    }
  }

  /** Assigning either topic, even the one already set, advertises it to the current task and changes nothing else. */
  lemma TopicAssignmentAdvertises(encode: AdvertisingEncoder, message: MotionMessage, s: Streamer, topic: string)
    requires Valid(s) && s.controller.task.Some?
    ensures var o := Handle(encode, message, s, SetDeviceMotionTopic(topic));
      && o.streamer == s.(deviceMotionTopic := topic)
      && |o.frames| == 1
      && o.frames[0].request == Advertising(AdvertiseRequest(topic, ImuType))
      && o.frames[0].taskId == s.controller.task.value.id
    ensures var o := Handle(encode, message, s, SetHeadphoneMotionTopic(topic));
      && o.streamer == s.(headphoneMotionTopic := topic)
      && |o.frames| == 1
      && o.frames[0].request == Advertising(AdvertiseRequest(topic, ImuType))
      && o.frames[0].taskId == s.controller.task.value.id
  {
  }

  /** When the current task opens, both topics are advertised to it, the device's first. */
  lemma OpeningAdvertisesBothTopics(encode: AdvertisingEncoder, message: MotionMessage, s: Streamer)
    requires Valid(s) && s.controller.task.Some?
    ensures var o := Handle(encode, message, s, ControllerInput(HWS.Socket(s.controller.task.value.id, HWS.DidOpen)));
      && |o.frames| == 2
      && o.frames[0].request == Advertising(AdvertiseRequest(s.deviceMotionTopic, ImuType))
      && o.frames[1].request == Advertising(AdvertiseRequest(s.headphoneMotionTopic, ImuType))
      && o.frames[0].taskId == s.controller.task.value.id
      && o.frames[1].taskId == s.controller.task.value.id
  {
    var u := HWS.OnSocketEvent(s.controller, s.controller.task.value.id, HWS.DidOpen);
    assert u.published == [HWS.HasTask(HWS.Connected(s.controller.task.value.url))];
  }

  /**
   * Changing to a new URL sends nothing: the new task is idle, and the
   * topics are advertised only once it connects.
   */
  lemma NewUrlSendsNothing(encode: AdvertisingEncoder, message: MotionMessage, s: Streamer, url: HWS.WebSocketUrl)
    requires Valid(s)
    requires !(s.controller.task.Some? && s.controller.task.value.url == url)
    ensures var o := Handle(encode, message, s, ControllerInput(HWS.ChangeUrl(url)));
      && o.frames == []
      && o.streamer.controller.created == s.controller.created + 1
  {
    var u := HWS.ChangeTask(s.controller, url);
    assert u.published == [HWS.HasTask(HWS.Idle), HWS.HasTask(HWS.Idle)];
  }

  /** Missing samples are ignored, and assigning a frame id sends nothing. */
  lemma SilentEvents(encode: AdvertisingEncoder, message: MotionMessage, s: Streamer, frameId: string)
    requires Valid(s)
    ensures Handle(encode, message, s, DeviceSample(None)) == Output(s, [])
    ensures Handle(encode, message, s, HeadphoneSample(None)) == Output(s, [])
    ensures Handle(encode, message, s, SetDeviceMotionFrameId(frameId)) == Output(s.(deviceMotionFrameId := frameId), [])
    ensures Handle(encode, message, s, SetHeadphoneMotionFrameId(frameId)) == Output(s.(headphoneMotionFrameId := frameId), [])
  {
  }

  /**
   * A sample is published on its own tracker's topic with that tracker's
   * frame id, to the current task, unless encoding fails.
   */
  lemma SamplesPublishedOnTheirTopics(encode: AdvertisingEncoder, message: MotionMessage, s: Streamer, m: DeviceMotion)
    requires Valid(s)
    ensures var o := Handle(encode, message, s, DeviceSample(Some(m)));
      var r := Publishing(PublishRequest(s.deviceMotionTopic, message(m, s.deviceMotionFrameId)));
      && o.streamer == s
      && (|o.frames| == 1 <==> s.controller.task.Some? && encode(r).Some?)
      && (|o.frames| == 1 ==> o.frames[0] == Frame(r, s.controller.task.value.id, encode(r).value))
      && |o.frames| <= 1
    ensures var o := Handle(encode, message, s, HeadphoneSample(Some(m)));
      var r := Publishing(PublishRequest(s.headphoneMotionTopic, message(m, s.headphoneMotionFrameId)));
      && o.streamer == s
      && (|o.frames| == 1 <==> s.controller.task.Some? && encode(r).Some?)
      && (|o.frames| == 1 ==> o.frames[0] == Frame(r, s.controller.task.value.id, encode(r).value))
      && |o.frames| <= 1
  {
  }
}
