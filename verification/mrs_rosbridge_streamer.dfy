/**
 * MotionRosStreamer's streamer (MotionRosStreamer/RosbridgeStreamer.swift).
 *
 * The same controller, topics and advertising as AirSense's streamer, with
 * the requests and the sending shared with it. It differs in the messages:
 * it builds the `sensor_msgs/Imu` itself, with or without gravity in the
 * linear acceleration (`excludeGravity`), and sends the face transform as a
 * `geometry_msgs/Transform` built from the matrix. The target's own copies of
 * the utilities and of `WebSocketController` are not part of this model;
 * AirSense's, which this file's calls match, stand in for them.
 */
module MrsRosbridgeStreamer {
  import opened Wrappers
  import opened SwiftNumerics
  import opened Platform
  import opened Json
  import opened AirSenseRosbridgeUtilities
  import opened RosbridgeSending
  import opened AirSenseStreamerSending
  import WS = AirSenseWebSocketController

  /** The streamer's controller and settings; the trackers are not part of it. */
  datatype Streamer = Streamer(
    controller: WS.Controller,
    phoneMotionTopic: string,
    phoneMotionFrameId: string,
    headphoneMotionTopic: string,
    headphoneMotionFrameId: string,
    excludeGravity: bool,
    faceTransformTopic: string)

  predicate Valid(s: Streamer) {
    WS.Valid(s.controller)
  }

  /** `init()`: a fresh controller, empty topics and frame ids, gravity included. */
  function Init(): (s: Streamer)
    ensures Valid(s) && s.controller == WS.Init() && !s.excludeGravity
    ensures s.phoneMotionTopic == "" && s.headphoneMotionTopic == "" && s.faceTransformTopic == ""
    ensures s.phoneMotionFrameId == "" && s.headphoneMotionFrameId == ""
  {
    Streamer(WS.Init(), "", "", "", "", false, "")
  }

  // ---------------------------------------------------------------------------
  // Messages

  /** The published acceleration: the user's alone, or with gravity added, component by component. */
  function Acceleration(motion: DeviceMotion, excludeGravity: bool): (a: Vec3)
    ensures excludeGravity ==> a == motion.userAcceleration
    ensures !excludeGravity ==> a == Add(motion.userAcceleration, motion.gravity)
  {
    if excludeGravity then motion.userAcceleration
    else Vec3(motion.userAcceleration.x + motion.gravity.x,
              motion.userAcceleration.y + motion.gravity.y,
              motion.userAcceleration.z + motion.gravity.z)
  }

  /** The two settings differ by exactly gravity. */
  lemma GravityIsTheDifference(motion: DeviceMotion)
    ensures Acceleration(motion, false) == Add(Acceleration(motion, true), motion.gravity)
  {
  }

  /**
   * The `RosImu` that `sendMotionPublishRequest(topic:frameId:motion:)`
   * builds, with AirSense's `RosImu` standing in: covariances left at zero,
   * and the stamp from `RosTime(timeInterval:)` as written (sub-second 0).
   */
  function MotionImu(motion: DeviceMotion, frameId: string, excludeGravity: bool): (r: RosImu)
    ensures r.header.stamp == RosTime(Trunc(motion.timestamp), 0) && r.header.frameId == frameId
    ensures r.orientation == QuaternionFrom(motion.attitude)
    ensures r.angularVelocity == Vector3From(motion.rotationRate)
    ensures r.linearAcceleration == Vector3From(Acceleration(motion, excludeGravity))
    ensures IsZeroCovariance(r.orientationCovariance)
    ensures IsZeroCovariance(r.angularVelocityCovariance)
    ensures IsZeroCovariance(r.linearAccelerationCovariance)
  {
    MakeImu(header := MakeHeader(stamp := TimeFromIntervalAsWritten(motion.timestamp), frameId := frameId),
            orientation := QuaternionFrom(motion.attitude),
            angularVelocity := Vector3From(motion.rotationRate),
            linearAcceleration := Vector3From(Acceleration(motion, excludeGravity)))
  }

  /** With gravity included, the message is the one `RosImu(motion:frameId:)` builds. */
  lemma WithGravityIsImuFromMotion(motion: DeviceMotion, frameId: string)
    ensures MotionImu(motion, frameId, false) == ImuFromMotion(motion, frameId)
  {
  }

  /**
   * How the streamer turns samples into message trees. The events below are
   * stated for any such pair; `SourceMessages` is the pair the file builds.
   */
  datatype Messages = Messages(imu: (DeviceMotion, string, bool) -> Json, transform: Matrix4 -> Json)

  /** The messages of `sendMotionPublishRequest` and `sendTransformPublishRequest`. */
  function SourceMessages(toQuaternion: RotationToQuaternion): Messages {
    Messages((motion, frameId, excludeGravity) => ImuJson(MotionImu(motion, frameId, excludeGravity)),
             (transform: Matrix4) => TransformJson(TransformFromMatrix(transform, toQuaternion)))
  }

  /**
   * The motion message carries the whole seconds of the stamp (sub-second
   * 0) and the frame id in its header, and the chosen acceleration; the transform message carries the matrix's
   * translation column and the rotation of its upper-left block.
   */
  lemma SourceMessagesContents(toQuaternion: RotationToQuaternion, motion: DeviceMotion, frameId: string, excludeGravity: bool, transform: Matrix4)
    ensures var j := SourceMessages(toQuaternion).imu(motion, frameId, excludeGravity);
      && Get(j, "header") == Some(HeaderJson(RosHeader(RosTime(Trunc(motion.timestamp), 0), frameId)))
      && Get(j, "orientation") == Some(QuaternionJson(QuaternionFrom(motion.attitude)))
      && Get(j, "linear_acceleration") == Some(Vector3Json(Vector3From(Acceleration(motion, excludeGravity))))
    ensures var j := SourceMessages(toQuaternion).transform(transform);
      && Get(j, "translation") == Some(Vector3Json(RosVector3(transform[3][0], transform[3][1], transform[3][2])))
      && Get(j, "rotation") == Some(QuaternionJson(QuaternionFrom(toQuaternion(Rotation(transform)))))
  {
  }

  // ---------------------------------------------------------------------------
  // Events

  /** What reaches the streamer: a setting assigned, a controller operation, or a tracker's new value. */
  datatype Event =
    | SetPhoneMotionTopic(topic: string)
    | SetPhoneMotionFrameId(frameId: string)
    | SetHeadphoneMotionTopic(topic: string)
    | SetHeadphoneMotionFrameId(frameId: string)
    | SetExcludeGravity(flag: bool)
    | SetFaceTransformTopic(topic: string)
    | ControllerInput(input: WS.Input)
    | PhoneMotion(motion: Option<DeviceMotion>)
    | HeadphoneMotion(motion: Option<DeviceMotion>)
    | FaceTransform(transform: Option<Matrix4>)

  datatype Output = Output(streamer: Streamer, frames: seq<Frame<Request>>)

  /** `sendMotionPublishRequest(topic:frameId:motion:)` with the current gravity setting. */
  function PublishMotion(encode: Encoder, messages: Messages, s: Streamer, topic: string, frameId: string, motion: DeviceMotion): (f: seq<Frame<Request>>)
    ensures |f| <= 1
    ensures |f| == 1 <==> s.controller.task.Some? && encode(Publishing(PublishRequest(topic, messages.imu(motion, frameId, s.excludeGravity)))).Some?
    ensures |f| == 1 ==>
      && f[0].request == Publishing(PublishRequest(topic, messages.imu(motion, frameId, s.excludeGravity)))
      && f[0].taskId == s.controller.task.value.id
  {
    Publish(encode, s.controller, topic, messages.imu(motion, frameId, s.excludeGravity))
  }

  /** `sendTransformPublishRequest(topic:transform:)`. */
  function PublishTransform(encode: Encoder, messages: Messages, s: Streamer, topic: string, transform: Matrix4): (f: seq<Frame<Request>>)
    ensures |f| <= 1
    ensures |f| == 1 <==> s.controller.task.Some? && encode(Publishing(PublishRequest(topic, messages.transform(transform)))).Some?
    ensures |f| == 1 ==>
      && f[0].request == Publishing(PublishRequest(topic, messages.transform(transform)))
      && f[0].taskId == s.controller.task.value.id
  {
    Publish(encode, s.controller, topic, messages.transform(transform))
  }

  /**
   * One event. A topic's `didSet` runs on every assignment, so assigning the
   * topic it already has advertises it again. A tracker publishing `nil`
   * sends nothing.
   */
  function Handle(encode: AdvertisingEncoder, messages: Messages, s: Streamer, e: Event): (o: Output)
    requires Valid(s)
    ensures Valid(o.streamer)
    ensures AddressedBelow(o.frames, o.streamer.controller.created)
    ensures s.controller.created <= o.streamer.controller.created
    ensures !e.ControllerInput? ==> o.streamer.controller == s.controller
    ensures !e.ControllerInput? && s.controller.task.None? ==> o.frames == []
  {
    match e
    case SetPhoneMotionTopic(topic) => Output(s.(phoneMotionTopic := topic), Advertise(encode, s.controller, topic, ImuType))
    case SetPhoneMotionFrameId(frameId) => Output(s.(phoneMotionFrameId := frameId), [])
    case SetHeadphoneMotionTopic(topic) => Output(s.(headphoneMotionTopic := topic), Advertise(encode, s.controller, topic, ImuType))
    case SetHeadphoneMotionFrameId(frameId) => Output(s.(headphoneMotionFrameId := frameId), [])
    case SetExcludeGravity(flag) => Output(s.(excludeGravity := flag), [])
    case SetFaceTransformTopic(topic) => Output(s.(faceTransformTopic := topic), Advertise(encode, s.controller, topic, TransformType))
    case ControllerInput(input) =>
      var u := WS.Step(s.controller, input);
      Output(s.(controller := u.controller),
             OnPublished(encode, u.controller, s.phoneMotionTopic, s.headphoneMotionTopic, s.faceTransformTopic, u.published))
    case PhoneMotion(motion) =>
      Output(s, if motion.Some? then PublishMotion(encode, messages, s, s.phoneMotionTopic, s.phoneMotionFrameId, motion.value) else [])
    case HeadphoneMotion(motion) =>
      Output(s, if motion.Some? then PublishMotion(encode, messages, s, s.headphoneMotionTopic, s.headphoneMotionFrameId, motion.value) else [])
    case FaceTransform(transform) =>
      Output(s, if transform.Some? then PublishTransform(encode, messages, s, s.faceTransformTopic, transform.value) else [])
  }

  /** Handles the events in order, collecting every frame sent. */
  function Run(encode: AdvertisingEncoder, messages: Messages, s: Streamer, events: seq<Event>): (o: Output)
    requires Valid(s)
    ensures Valid(o.streamer)
    decreases |events|
  {
    if |events| == 0 then Output(s, [])
    else
      var first := Handle(encode, messages, s, events[0]);
      var rest := Run(encode, messages, first.streamer, events[1..]);
      Output(rest.streamer, first.frames + rest.frames)
  }

  // ---------------------------------------------------------------------------
  // Properties

  /** Whatever happens, every frame goes to a task the controller had made by the end of the run. */
  lemma {:induction false} RunAddressesMadeTasks(encode: AdvertisingEncoder, messages: Messages, s: Streamer, events: seq<Event>)
    requires Valid(s)
    ensures AddressedBelow(Run(encode, messages, s, events).frames, Run(encode, messages, s, events).streamer.controller.created)
    ensures s.controller.created <= Run(encode, messages, s, events).streamer.controller.created
    decreases |events|
  {
    if |events| > 0 {
      var first := Handle(encode, messages, s, events[0]);
      var rest := Run(encode, messages, first.streamer, events[1..]);
      RunAddressesMadeTasks(encode, messages, first.streamer, events[1..]);
      var all := first.frames + rest.frames;
      forall k | 0 <= k < |all| ensures all[k].taskId < rest.streamer.controller.created {
        if k < |first.frames| {
          assert all[k] == first.frames[k];
        } else {
          assert all[k] == rest.frames[k - |first.frames|];
        }
      }
    }
  }

  /** Assigning the phone topic, even the one already set, advertises it to the current task and changes nothing else. */
  lemma PhoneTopicAssignmentAdvertises(encode: AdvertisingEncoder, messages: Messages, s: Streamer, topic: string)
    requires Valid(s) && s.controller.task.Some?
    ensures var o := Handle(encode, messages, s, SetPhoneMotionTopic(topic));
      && o.streamer == s.(phoneMotionTopic := topic)
      && |o.frames| == 1
      && o.frames[0].request == Advertising(AdvertiseRequest(topic, ImuType))
      && o.frames[0].taskId == s.controller.task.value.id
  {
  }

  /** Likewise for the headphone topic, advertised as an IMU topic. */
  lemma HeadphoneTopicAssignmentAdvertises(encode: AdvertisingEncoder, messages: Messages, s: Streamer, topic: string)
    requires Valid(s) && s.controller.task.Some?
    ensures var o := Handle(encode, messages, s, SetHeadphoneMotionTopic(topic));
      && o.streamer == s.(headphoneMotionTopic := topic)
      && |o.frames| == 1
      && o.frames[0].request == Advertising(AdvertiseRequest(topic, ImuType))
      && o.frames[0].taskId == s.controller.task.value.id
  {
  }

  /** Likewise for the face topic, advertised as a transform. */
  lemma FaceTopicAssignmentAdvertises(encode: AdvertisingEncoder, messages: Messages, s: Streamer, topic: string)
    requires Valid(s) && s.controller.task.Some?
    ensures var o := Handle(encode, messages, s, SetFaceTransformTopic(topic));
      && o.streamer == s.(faceTransformTopic := topic)
      && |o.frames| == 1
      && o.frames[0].request == Advertising(AdvertiseRequest(topic, TransformType))
      && o.frames[0].taskId == s.controller.task.value.id
  {
  }

  /** When the current task opens, the three topics are advertised to it, phone first and face last. */
  lemma OpeningAdvertisesAllTopics(encode: AdvertisingEncoder, messages: Messages, s: Streamer)
    requires Valid(s) && s.controller.task.Some?
    ensures var o := Handle(encode, messages, s, ControllerInput(WS.Socket(s.controller.task.value.id, WS.DidOpen)));
      && |o.frames| == 3
      && o.frames[0].request == Advertising(AdvertiseRequest(s.phoneMotionTopic, ImuType))
      && o.frames[1].request == Advertising(AdvertiseRequest(s.headphoneMotionTopic, ImuType))
      && o.frames[2].request == Advertising(AdvertiseRequest(s.faceTransformTopic, TransformType))
      && o.frames[0].taskId == s.controller.task.value.id
      && o.frames[1].taskId == s.controller.task.value.id
      && o.frames[2].taskId == s.controller.task.value.id
  {
    var u := WS.OnSocketEvent(s.controller, s.controller.task.value.id, WS.DidOpen);
    assert u.published == [WS.HasTask(WS.Connected(s.controller.task.value.url))];
  }

  /** Missing samples are ignored, and assigning a frame id or the gravity setting sends nothing. */
  lemma SilentEvents(encode: AdvertisingEncoder, messages: Messages, s: Streamer, frameId: string, flag: bool)
    requires Valid(s)
    ensures Handle(encode, messages, s, PhoneMotion(None)) == Output(s, [])
    ensures Handle(encode, messages, s, HeadphoneMotion(None)) == Output(s, [])
    ensures Handle(encode, messages, s, FaceTransform(None)) == Output(s, [])
    ensures Handle(encode, messages, s, SetPhoneMotionFrameId(frameId)) == Output(s.(phoneMotionFrameId := frameId), [])
    ensures Handle(encode, messages, s, SetHeadphoneMotionFrameId(frameId)) == Output(s.(headphoneMotionFrameId := frameId), [])
    ensures Handle(encode, messages, s, SetExcludeGravity(flag)) == Output(s.(excludeGravity := flag), [])
  {
  }

  /**
   * A phone sample is published on the phone topic with the phone frame id
   * and the current gravity setting, to the current task; it is dropped
   * only when there is no task or a number cannot be printed.
   */
  lemma PhoneSamplePublished(encode: AdvertisingEncoder, messages: Messages, s: Streamer, m: DeviceMotion)
    requires Valid(s)
    ensures var body := messages.imu(m, s.phoneMotionFrameId, s.excludeGravity);
      var o := Handle(encode, messages, s, PhoneMotion(Some(m)));
      && o.streamer == s
      && (|o.frames| == 1 <==> s.controller.task.Some? && encode(Publishing(PublishRequest(s.phoneMotionTopic, body))).Some?)
      && |o.frames| <= 1
      && (|o.frames| == 1 ==> o.frames[0].request == Publishing(PublishRequest(s.phoneMotionTopic, body)))
      && (|o.frames| == 1 ==> o.frames[0].taskId == s.controller.task.value.id)
  {
  }

  /**
   * A headphone sample is published on the headphone topic with the
   * headphone frame id and the current gravity setting, to the current task.
   */
  lemma HeadphoneSamplePublished(encode: AdvertisingEncoder, messages: Messages, s: Streamer, m: DeviceMotion)
    requires Valid(s) && s.controller.task.Some?
    requires encode(Publishing(PublishRequest(s.headphoneMotionTopic, messages.imu(m, s.headphoneMotionFrameId, s.excludeGravity)))).Some?
    ensures var o := Handle(encode, messages, s, HeadphoneMotion(Some(m)));
      && o.streamer == s
      && |o.frames| == 1
      && o.frames[0].request == Publishing(PublishRequest(s.headphoneMotionTopic, messages.imu(m, s.headphoneMotionFrameId, s.excludeGravity)))
      && o.frames[0].taskId == s.controller.task.value.id
  {
  }

  /** A face transform is published on the face topic, to the current task. */
  lemma FaceSamplePublished(encode: AdvertisingEncoder, messages: Messages, s: Streamer, m: Matrix4)
    requires Valid(s) && s.controller.task.Some?
    requires encode(Publishing(PublishRequest(s.faceTransformTopic, messages.transform(m)))).Some?
    ensures var o := Handle(encode, messages, s, FaceTransform(Some(m)));
      && o.streamer == s
      && |o.frames| == 1
      && o.frames[0].request == Publishing(PublishRequest(s.faceTransformTopic, messages.transform(m)))
      && o.frames[0].taskId == s.controller.task.value.id
  {
  }
}
