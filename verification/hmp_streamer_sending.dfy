/**
 * The sending half of HeadphoneMotionPub's streamer
 * (HeadphoneMotionPub/MotionToRosbridgeStreamer.swift), which MotionRosStreamer's
 * `MotionToRosbridgeStreamer` repeats: the requests it makes, how they are
 * encoded, and the advertisements it sends when a topic is assigned and when
 * the connection opens. It sends through `WebSocketTaskController`.
 */
module HmpStreamerSending {
  import opened Wrappers
  import opened Platform
  import opened Json
  import opened HmpRosbridgeUtilities
  import opened RosbridgeSending
  import HWS = HmpWebSocketTaskController

  /** Both topics carry `sensor_msgs/Imu`. */
  const ImuType: string := "sensor_msgs/Imu"

  /** The number of the controller's task, if it has one. */
  function TaskId(c: HWS.Controller): (r: Option<nat>)
    ensures r.Some? <==> c.task.Some?
    ensures r.Some? ==> r.value == c.task.value.id
  {
    if c.task.Some? then Some(c.task.value.id) else None
  }

  /** The two kinds of request the streamer makes. */
  datatype Request = Advertising(advertise: AdvertiseRequest) | Publishing(publish: PublishRequest)

  /** The request's tree. */
  function RequestJson(r: Request): (j: Json)
    ensures r.Advertising? ==> Get(j, "op") == Some(JString("advertise")) && Get(j, "topic") == Some(JString(r.advertise.topic))
    ensures r.Publishing? ==> Get(j, "op") == Some(JString("publish")) && Get(j, "topic") == Some(JString(r.publish.topic))
  {
    match r
    case Advertising(a) => AdvertiseJson(a)
    case Publishing(p) => PublishJson(p)
  }

  /** How requests are encoded for the socket: `None` when encoding throws. */
  type Encoder = Request -> Option<Message>

  /** The encoder never fails on an advertisement. */
  ghost predicate EncodesAdvertisements(encode: Encoder) {
    forall a: AdvertiseRequest :: encode(Advertising(a)).Some?
  }

  /** An encoder that, like `encodeForWebSocket(object:)`, always encodes an advertisement. */
  type AdvertisingEncoder = encode: Encoder | EncodesAdvertisements(encode)
    witness (r: Request) => Some(DataMessage(""))

  /** `encodeForWebSocket(object:)` with the platform's number printer. */
  function EncodeRequest(formatReal: RealFormatter): Encoder {
    r => EncodeForWebSocket(formatReal, RequestJson(r))
  }

  /**
   * `encodeForWebSocket(object:)` never fails on an advertisement and fails
   * on a publication exactly when the message holds a number the printer
   * cannot print.
   */
  lemma EncodeRequestFailsOnlyOnNumbers(formatReal: RealFormatter)
    ensures EncodesAdvertisements(EncodeRequest(formatReal))
    ensures forall p: PublishRequest ::
      EncodeRequest(formatReal)(Publishing(p)).Some? <==> Encodable(EncoderOptions(formatReal), PublishJson(p))
  {
    forall a: AdvertiseRequest ensures EncodeRequest(formatReal)(Advertising(a)).Some? {
      AdvertiseAlwaysEncodes(formatReal, a);
    }
  }

  // ---------------------------------------------------------------------------
  // Sending

  /** `sendTopicAdvertiseRequest(topic:)`: an Imu advertisement to the current task, if any. */
  function Advertise(encode: AdvertisingEncoder, c: HWS.Controller, topic: string): (f: seq<Frame<Request>>)
    ensures |f| == if c.task.Some? then 1 else 0
    ensures |f| == 1 ==> f[0].request == Advertising(AdvertiseRequest(topic, ImuType)) && f[0].taskId == c.task.value.id
  {
    SendRequest(encode, TaskId(c), Advertising(AdvertiseRequest(topic, ImuType)))
  }

  /** The publication goes to the current task, if any, unless encoding fails. */
  function Publish(encode: Encoder, c: HWS.Controller, topic: string, msg: Json): (f: seq<Frame<Request>>)
    ensures |f| <= 1
    ensures |f| == 1 <==> c.task.Some? && encode(Publishing(PublishRequest(topic, msg))).Some?
    ensures |f| == 1 ==> f[0].request == Publishing(PublishRequest(topic, msg)) && f[0].taskId == c.task.value.id
  {
    SendRequest(encode, TaskId(c), Publishing(PublishRequest(topic, msg)))
  }

  /** The two advertisements made on connection: device first, then headphone. */
  function AdvertiseTopics(encode: AdvertisingEncoder, c: HWS.Controller, device: string, headphone: string): (f: seq<Frame<Request>>)
    ensures c.task.None? ==> f == []
    ensures c.task.Some? ==>
      && |f| == 2
      && f[0].request == Advertising(AdvertiseRequest(device, ImuType))
      && f[1].request == Advertising(AdvertiseRequest(headphone, ImuType))
      && f[0].taskId == c.task.value.id && f[1].taskId == c.task.value.id
    ensures AdvertisingTo(f, TaskId(c))
  {
    if c.task.None? then []
    else
      var a := Advertise(encode, c, device);
      var b := Advertise(encode, c, headphone);
      var f := [a[0], b[0]];
      assert forall k | 0 <= k < 2 :: f[k].request.Advertising? && Some(f[k].taskId) == TaskId(c);
      f
  }

  /** Every frame is an advertisement sent to the task numbered `taskId`. */
  predicate AdvertisingTo(f: seq<Frame<Request>>, taskId: Option<nat>) {
    forall k :: 0 <= k < |f| ==> f[k].request.Advertising? && Some(f[k].taskId) == taskId
  }

  /** Whether a published state is `hasTask(connected)`. */
  predicate IsConnected(state: HWS.ControllerState) {
    state.HasTask? && state.taskState.Connected?
  }

  /** How many of the published states are `hasTask(connected)`. */
  function Connections(published: seq<HWS.ControllerState>): (n: nat)
    ensures n <= |published|
    ensures n == 0 <==> forall k :: 0 <= k < |published| ==> !IsConnected(published[k])
    decreases |published|
  {
    if |published| == 0 then 0
    else (if IsConnected(published[0]) then 1 else 0) + Connections(published[1..])
  }

  /**
   * The state sink: every published `hasTask(connected)` advertises both
   * topics to the controller `c` that published it; any other state sends
   * nothing.
   */
  function OnPublished(encode: AdvertisingEncoder, c: HWS.Controller, device: string, headphone: string,
                       published: seq<HWS.ControllerState>): (f: seq<Frame<Request>>)
    ensures |f| == if c.task.Some? then 2 * Connections(published) else 0
    ensures AdvertisingTo(f, TaskId(c))
    decreases |published|
  {
    if |published| == 0 then []
    else
      var first := if IsConnected(published[0]) then AdvertiseTopics(encode, c, device, headphone) else [];
      var rest := OnPublished(encode, c, device, headphone, published[1..]);
      assert forall k :: 0 <= k < |first + rest| ==> (first + rest)[k] == if k < |first| then first[k] else rest[k - |first|];
      first + rest
  }
}
