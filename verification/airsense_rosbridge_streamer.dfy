/**
 * AirSense's streamer (AirSense/RosbridgeStreamer.swift).
 *
 * It owns a `WebSocketController` and three topics. Assigning a topic
 * advertises it; each time the controller's state becomes `connected` all
 * three topics are advertised again; every phone or headphone motion and
 * every face transform is published on its topic, as a ROS 1 or a ROS 2
 * message depending on `sendRos2Msgs`. The trackers are inputs: their
 * `@Published` values arrive as events. The four message types that the
 * streamer chooses between are declared outside the modelled files and are
 * passed in as their JSON encodings.
 */
module AirSenseRosbridgeStreamer {
  import opened Wrappers
  import opened Platform
  import opened Json
  import opened AirSenseRosbridgeUtilities
  import opened RosbridgeSending
  import opened AirSenseStreamerSending
  import WS = AirSenseWebSocketController

  /** `Ros1Imu(motion:frameId:)`, `Ros2Imu(motion:frameId:)`, `Ros1Transform(_:)`, `Ros2Transform(_:)`, as trees. */
  datatype MessageBodies = MessageBodies(
    ros1Imu: (DeviceMotion, string) -> Json,
    ros2Imu: (DeviceMotion, string) -> Json,
    ros1Transform: Matrix4 -> Json,
    ros2Transform: Matrix4 -> Json)

  /** The streamer's controller and settings; the trackers are not part of it. */
  datatype Streamer = Streamer(
    controller: WS.Controller,
    sendRos2Msgs: bool,
    phoneMotionTopic: string,
    phoneMotionFrameId: string,
    headphoneMotionTopic: string,
    headphoneMotionFrameId: string,
    faceTransformTopic: string)

  predicate Valid(s: Streamer) {
    WS.Valid(s.controller)
  }

  /** `init()`: a fresh controller, empty topics and frame ids, ROS 1 messages. */
  function Init(): (s: Streamer)
    ensures Valid(s) && s.controller == WS.Init() && !s.sendRos2Msgs
    ensures s.phoneMotionTopic == "" && s.headphoneMotionTopic == "" && s.faceTransformTopic == ""
    ensures s.phoneMotionFrameId == "" && s.headphoneMotionFrameId == ""
  {
    Streamer(WS.Init(), false, "", "", "", "", "")
  }

  /**
   * `sendMotionPublishRequest(topic:motion:frameId:)`: the ROS 2 body when
   * `sendRos2Msgs` is set, the ROS 1 body otherwise.
   */
  function PublishMotion(encode: AdvertisingEncoder, bodies: MessageBodies, s: Streamer, topic: string, frameId: string, motion: DeviceMotion): (f: seq<Frame<Request>>)
    ensures |f| <= 1 && (|f| == 1 ==> s.controller.task.Some? && f[0].taskId == s.controller.task.value.id)
    ensures |f| == 1 ==>
      f[0].request == Publishing(PublishRequest(topic, if s.sendRos2Msgs then bodies.ros2Imu(motion, frameId) else bodies.ros1Imu(motion, frameId)))
  {
    if s.sendRos2Msgs then Publish(encode, s.controller, topic, bodies.ros2Imu(motion, frameId))
    else Publish(encode, s.controller, topic, bodies.ros1Imu(motion, frameId))
  }

  /** `sendTransformPublishRequest(topic:transform:)`, with the same choice of body. */
  function PublishTransform(encode: AdvertisingEncoder, bodies: MessageBodies, s: Streamer, topic: string, transform: Matrix4): (f: seq<Frame<Request>>)
    ensures |f| <= 1 && (|f| == 1 ==> s.controller.task.Some? && f[0].taskId == s.controller.task.value.id)
    ensures |f| == 1 ==>
      f[0].request == Publishing(PublishRequest(topic, if s.sendRos2Msgs then bodies.ros2Transform(transform) else bodies.ros1Transform(transform)))
  {
    if s.sendRos2Msgs then Publish(encode, s.controller, topic, bodies.ros2Transform(transform))
    else Publish(encode, s.controller, topic, bodies.ros1Transform(transform))
  }

  // ---------------------------------------------------------------------------
  // Events

  /** What reaches the streamer: a setting assigned, a controller operation, or a tracker's new value. */
  datatype Event =
    | SetSendRos2Msgs(flag: bool)
    | SetPhoneMotionTopic(topic: string)
    | SetPhoneMotionFrameId(frameId: string)
    | SetHeadphoneMotionTopic(topic: string)
    | SetHeadphoneMotionFrameId(frameId: string)
    | SetFaceTransformTopic(topic: string)
    | ControllerInput(input: WS.Input)
    | PhoneMotion(motion: Option<DeviceMotion>)
    | HeadphoneMotion(motion: Option<DeviceMotion>)
    | FaceTransform(transform: Option<Matrix4>)

  datatype Output = Output(streamer: Streamer, frames: seq<Frame<Request>>)

  /**
   * One event. A topic's `didSet` runs on every assignment, so assigning the
   * topic it already has advertises it again. A tracker publishing `nil`
   * sends nothing.
   */
  function Handle(encode: AdvertisingEncoder, bodies: MessageBodies, s: Streamer, e: Event): (o: Output)
    requires Valid(s)
    ensures Valid(o.streamer)
    ensures AddressedBelow(o.frames, o.streamer.controller.created)
    ensures s.controller.created <= o.streamer.controller.created
    ensures !e.ControllerInput? ==> o.streamer.controller == s.controller
    ensures !e.ControllerInput? && s.controller.task.None? ==> o.frames == []
  {
    match e
    case SetSendRos2Msgs(flag) => Output(s.(sendRos2Msgs := flag), [])
    case SetPhoneMotionTopic(topic) => Output(s.(phoneMotionTopic := topic), Advertise(encode, s.controller, topic, ImuType))
    case SetPhoneMotionFrameId(frameId) => Output(s.(phoneMotionFrameId := frameId), [])
    case SetHeadphoneMotionTopic(topic) => Output(s.(headphoneMotionTopic := topic), Advertise(encode, s.controller, topic, ImuType))
    case SetHeadphoneMotionFrameId(frameId) => Output(s.(headphoneMotionFrameId := frameId), [])
    case SetFaceTransformTopic(topic) => Output(s.(faceTransformTopic := topic), Advertise(encode, s.controller, topic, TransformType))
    case ControllerInput(input) =>
      var u := WS.Step(s.controller, input);
      var next := s.(controller := u.controller);
      Output(next, OnPublished(encode, u.controller, s.phoneMotionTopic, s.headphoneMotionTopic, s.faceTransformTopic, u.published))
    case PhoneMotion(motion) =>
      Output(s, if motion.Some? then PublishMotion(encode, bodies, s, s.phoneMotionTopic, s.phoneMotionFrameId, motion.value) else [])
    case HeadphoneMotion(motion) =>
      Output(s, if motion.Some? then PublishMotion(encode, bodies, s, s.headphoneMotionTopic, s.headphoneMotionFrameId, motion.value) else [])
    case FaceTransform(transform) =>
      Output(s, if transform.Some? then PublishTransform(encode, bodies, s, s.faceTransformTopic, transform.value) else [])
  }

  /** Handles the events in order, collecting every frame sent. */
  function Run(encode: AdvertisingEncoder, bodies: MessageBodies, s: Streamer, events: seq<Event>): (o: Output)
    requires Valid(s)
    ensures Valid(o.streamer)
    decreases |events|
  {
    if |events| == 0 then Output(s, [])
    else
      var first := Handle(encode, bodies, s, events[0]);
      var rest := Run(encode, bodies, first.streamer, events[1..]);
      Output(rest.streamer, first.frames + rest.frames)
  }

  // ---------------------------------------------------------------------------
  // Properties

  /**
   * Whatever happens, every frame goes to a task the controller had made by
   * the end of the run, and the controller's creation count never falls.
   */
  lemma {:induction false} RunAddressesMadeTasks(encode: AdvertisingEncoder, bodies: MessageBodies, s: Streamer, events: seq<Event>)
    requires Valid(s)
    ensures AddressedBelow(Run(encode, bodies, s, events).frames, Run(encode, bodies, s, events).streamer.controller.created)
    ensures s.controller.created <= Run(encode, bodies, s, events).streamer.controller.created
    decreases |events|
  {
    if |events| > 0 {
      var first := Handle(encode, bodies, s, events[0]);
      var rest := Run(encode, bodies, first.streamer, events[1..]);
      RunAddressesMadeTasks(encode, bodies, first.streamer, events[1..]);
      var all := first.frames + rest.frames;
      forall k | 0 <= k < |all| ensures all[k].taskId < rest.streamer.controller.created {
        if k < |first.frames| {
          assert all[k] == first.frames[k];
        } else {
          assert all[k] == rest.frames[k - |first.frames|];
        }
      }
    }
  }

  /** Assigning the phone topic, even the one already set, advertises it to the current task and changes nothing else. */
  lemma PhoneTopicAssignmentAdvertises(encode: AdvertisingEncoder, bodies: MessageBodies, s: Streamer, topic: string)
    requires Valid(s) && s.controller.task.Some?
    ensures var o := Handle(encode, bodies, s, SetPhoneMotionTopic(topic));
      && o.streamer == s.(phoneMotionTopic := topic)
      && |o.frames| == 1
      && o.frames[0].request == Advertising(AdvertiseRequest(topic, ImuType))
      && o.frames[0].taskId == s.controller.task.value.id
  {
  }

  /** Likewise for the headphone topic. */
  lemma HeadphoneTopicAssignmentAdvertises(encode: AdvertisingEncoder, bodies: MessageBodies, s: Streamer, topic: string)
    requires Valid(s) && s.controller.task.Some?
    ensures var o := Handle(encode, bodies, s, SetHeadphoneMotionTopic(topic));
      && o.streamer == s.(headphoneMotionTopic := topic)
      && |o.frames| == 1
      && o.frames[0].request == Advertising(AdvertiseRequest(topic, ImuType))
      && o.frames[0].taskId == s.controller.task.value.id
  {
  }

  /** Likewise for the face topic, advertised as a transform. */
  lemma FaceTopicAssignmentAdvertises(encode: AdvertisingEncoder, bodies: MessageBodies, s: Streamer, topic: string)
    requires Valid(s) && s.controller.task.Some?
    ensures var o := Handle(encode, bodies, s, SetFaceTransformTopic(topic));
      && o.streamer == s.(faceTransformTopic := topic)
      && |o.frames| == 1
      && o.frames[0].request == Advertising(AdvertiseRequest(topic, TransformType))
      && o.frames[0].taskId == s.controller.task.value.id
  {
  }

  /** Assigning a frame id or the ROS 2 flag sends nothing and changes nothing else. */
  lemma SettingsAreSilent(encode: AdvertisingEncoder, bodies: MessageBodies, s: Streamer, frameId: string, flag: bool)
    requires Valid(s)
    ensures Handle(encode, bodies, s, SetPhoneMotionFrameId(frameId)) == Output(s.(phoneMotionFrameId := frameId), [])
    ensures Handle(encode, bodies, s, SetHeadphoneMotionFrameId(frameId)) == Output(s.(headphoneMotionFrameId := frameId), [])
    ensures Handle(encode, bodies, s, SetSendRos2Msgs(flag)) == Output(s.(sendRos2Msgs := flag), [])
  {
  }

  /** When the current task opens, the three topics are advertised to it, phone first and face last. */
  lemma OpeningAdvertisesAllTopics(encode: AdvertisingEncoder, bodies: MessageBodies, s: Streamer)
    requires Valid(s) && s.controller.task.Some?
    ensures var o := Handle(encode, bodies, s, ControllerInput(WS.Socket(s.controller.task.value.id, WS.DidOpen)));
      && |o.frames| == 3
      && o.frames[0].request == Advertising(AdvertiseRequest(s.phoneMotionTopic, ImuType))
      && o.frames[1].request == Advertising(AdvertiseRequest(s.headphoneMotionTopic, ImuType))
      && o.frames[2].request == Advertising(AdvertiseRequest(s.faceTransformTopic, TransformType))
      && o.frames[0].taskId == s.controller.task.value.id
      && o.frames[1].taskId == s.controller.task.value.id
      && o.frames[2].taskId == s.controller.task.value.id
  {
    var u := WS.OnSocketEvent(s.controller, s.controller.task.value.id, WS.DidOpen);
    assert u.published == [WS.HasTask(WS.Connected(s.controller.task.value.url))];
  }

  /** Only a `connected` state advertises: creating, closing or completing the task sends nothing. */
  lemma OtherCallbacksAreSilent(encode: AdvertisingEncoder, bodies: MessageBodies, s: Streamer, taskId: nat, e: WS.SocketEvent)
    requires Valid(s) && !e.DidOpen?
    ensures Handle(encode, bodies, s, ControllerInput(WS.Socket(taskId, e))).frames == []
  {
    var u := WS.OnSocketEvent(s.controller, taskId, e);
    assert Connections(u.published) == 0;
  }

  /** Missing samples are ignored: the streamer neither changes nor sends. */
  lemma MissingSamplesIgnored(encode: AdvertisingEncoder, bodies: MessageBodies, s: Streamer)
    requires Valid(s)
    ensures Handle(encode, bodies, s, PhoneMotion(None)) == Output(s, [])
    ensures Handle(encode, bodies, s, HeadphoneMotion(None)) == Output(s, [])
    ensures Handle(encode, bodies, s, FaceTransform(None)) == Output(s, [])
  {
  }

  /**
   * A phone sample is published on the phone topic with the phone frame id,
   * to the current task, as the ROS 2 message exactly when the flag is set;
   * it is dropped only when there is no task or a number cannot be printed.
   */
  lemma PhoneSamplePublished(encode: AdvertisingEncoder, bodies: MessageBodies, s: Streamer, m: DeviceMotion)
    requires Valid(s)
    ensures var body := if s.sendRos2Msgs then bodies.ros2Imu(m, s.phoneMotionFrameId) else bodies.ros1Imu(m, s.phoneMotionFrameId);
      var o := Handle(encode, bodies, s, PhoneMotion(Some(m)));
      && o.streamer == s
      && (|o.frames| == 1 <==> s.controller.task.Some? && encode(Publishing(PublishRequest(s.phoneMotionTopic, body))).Some?)
      && |o.frames| <= 1
      && (|o.frames| == 1 ==> o.frames[0].request == Publishing(PublishRequest(s.phoneMotionTopic, body)))
  {
  }

  /**
   * A headphone sample is published on the headphone topic with the
   * headphone frame id, to the current task, in the body the flag selects.
   */
  lemma HeadphoneSamplePublished(encode: AdvertisingEncoder, bodies: MessageBodies, s: Streamer, m: DeviceMotion)
    requires Valid(s)
    ensures var body := if s.sendRos2Msgs then bodies.ros2Imu(m, s.headphoneMotionFrameId) else bodies.ros1Imu(m, s.headphoneMotionFrameId);
      var o := Handle(encode, bodies, s, HeadphoneMotion(Some(m)));
      && o.streamer == s
      && (|o.frames| == 1 <==> s.controller.task.Some? && encode(Publishing(PublishRequest(s.headphoneMotionTopic, body))).Some?)
      && |o.frames| <= 1
      && (|o.frames| == 1 ==> o.frames[0].request == Publishing(PublishRequest(s.headphoneMotionTopic, body)))
      && (|o.frames| == 1 ==> o.frames[0].taskId == s.controller.task.value.id)
  {
  }

  /**
   * A face transform is published on the face topic, to the current task,
   * as the ROS 2 transform exactly when the flag is set.
   */
  lemma FaceSamplePublished(encode: AdvertisingEncoder, bodies: MessageBodies, s: Streamer, m: Matrix4)
    requires Valid(s)
    ensures var body := if s.sendRos2Msgs then bodies.ros2Transform(m) else bodies.ros1Transform(m);
      var o := Handle(encode, bodies, s, FaceTransform(Some(m)));
      && o.streamer == s
      && (|o.frames| == 1 <==> s.controller.task.Some? && encode(Publishing(PublishRequest(s.faceTransformTopic, body))).Some?)
      && |o.frames| <= 1
      && (|o.frames| == 1 ==> o.frames[0].request == Publishing(PublishRequest(s.faceTransformTopic, body)))
      && (|o.frames| == 1 ==> o.frames[0].taskId == s.controller.task.value.id)
  {
  }
}
