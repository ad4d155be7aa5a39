/**
 * HeadphoneMotionPub's direct publisher (HeadphoneMotionPub/RosPublisher.swift).
 *
 * It owns one WebSocket task and a sequence counter, builds the IMU publish
 * request as a dictionary and serialises it with `JSONSerialization`, which
 * escapes slashes. Sockets are numbered by creation; the send completion
 * callbacks and the delegate notifications are not modelled.
 */
module HmpRosPublisher {
  import opened Wrappers
  import opened SwiftNumerics
  import opened Platform
  import opened UrlModel
  import opened Json
  import opened RosImuObject
  import U = HmpRosbridgeUtilities

  /** A WebSocket task: its creation number and URL. */
  datatype Socket = Socket(id: nat, url: Url)

  /** The publisher: its current task, the next header `seq`, and how many tasks it has made. */
  datatype Publisher = Publisher(socket: Option<Socket>, sequenceNumber: int, created: nat)

  /** A fresh publisher: no task, counter 0. */
  function Init(): (p: Publisher)
    ensures p.socket.None? && p.sequenceNumber == 0 && p.created == 0
  {
    Publisher(None, 0, 0)
  }

  datatype Restart = Restart(publisher: Publisher, cancelled: Option<Socket>)

  /** `restartSession(url:)`: cancels the old task, creates and resumes one to `url`, and resets the counter. */
  function RestartSession(p: Publisher, url: Url): (r: Restart)
    ensures r.cancelled == p.socket
    ensures r.publisher.socket == Some(Socket(p.created, url))
    ensures r.publisher.sequenceNumber == 0
    ensures r.publisher.created == p.created + 1
  {
    Restart(Publisher(Some(Socket(p.created, url)), 0, p.created + 1), p.socket)
  }

  // ---------------------------------------------------------------------------
  // The message

  /** The stamp of the header: whole seconds and nanoseconds. */
  datatype Stamp = Stamp(sec: int, nsec: int)

  /**
   * `Int(timeInterval)` and `Int((timeInterval - Double(timeSec)) * 1_000_000_000)`:
   * for a non-negative interval, the interval rounded down to a whole
   * number of nanoseconds.
   */
  function SplitStamp(t: real): (r: Stamp)
    ensures r.sec == Trunc(t)
    ensures 0.0 <= t ==> 0 <= r.nsec < 1_000_000_000
    ensures 0.0 <= t ==>
      r.sec as real + r.nsec as real / 1_000_000_000.0 <= t < r.sec as real + (r.nsec + 1) as real / 1_000_000_000.0
  {
    var sec := Trunc(t);
    Stamp(sec, Trunc((t - sec as real) * 1_000_000_000.0))
  }

  /** A stamp of 1.75 s splits into 1 s and 750 000 000 ns. */
  lemma SplitStampExample()
    ensures SplitStamp(1.75) == Stamp(1, 750_000_000)
  {
    assert Trunc(1.75) == 1;
    assert Trunc(0.75 * 1_000_000_000.0) == 750_000_000;
  }

  /** The ROS "not provided" covariance the dictionary spells out three times. */
  const NotProvidedCovariance: seq<real> := [-1.0, 0.0, 0.0, 0.0, 0.0, 0.0, 0.0, 0.0, 0.0]

  function StampJson(s: Stamp): (j: Json)
    ensures Get(j, "sec") == Some(JInt(s.sec)) && Get(j, "nsec") == Some(JInt(s.nsec))
  {
    var ms := [Member("sec", JInt(s.sec)), Member("nsec", JInt(s.nsec))];
    GetDistinct(ms);
    assert ms[0].key == "sec" && ms[1].key == "nsec";
    JObject(ms)
  }

  function HeaderJson(seqNumber: int, stamp: Stamp, frameId: string): (j: Json)
    ensures Get(j, "seq") == Some(JInt(seqNumber))
    ensures Get(j, "stamp") == Some(StampJson(stamp))
    ensures Get(j, "frame_id") == Some(JString(frameId))
  {
    var ms := [Member("seq", JInt(seqNumber)), Member("stamp", StampJson(stamp)), Member("frame_id", JString(frameId))];
    GetDistinct(ms);
    assert ms[0].key == "seq" && ms[1].key == "stamp" && ms[2].key == "frame_id";
    JObject(ms)
  }

  /**
   * The orientation and vector dictionaries have the members of the
   * `RosQuaternion` and `RosVector3` encodings, so those are reused.
   */
  function AttitudeJson(q: Quaternion): Json {
    U.QuaternionJson(U.QuaternionFrom(q))
  }

  function VectorJson(v: Vec3): Json {
    U.Vector3Json(U.Vector3From(v))
  }

  /** The IMU dictionary: user acceleration only, fixed covariances. */
  function ImuJson(header: Json, motion: DeviceMotion): (j: Json)
    ensures Get(j, "header") == Some(header)
    ensures Get(j, "orientation") == Some(AttitudeJson(motion.attitude))
    ensures Get(j, "orientation_covariance") == Some(RealArray(NotProvidedCovariance))
    ensures Get(j, "angular_velocity") == Some(VectorJson(motion.rotationRate))
    ensures Get(j, "angular_velocity_covariance") == Some(RealArray(NotProvidedCovariance))
    ensures Get(j, "linear_acceleration") == Some(VectorJson(motion.userAcceleration))
    ensures Get(j, "linear_acceleration_covariance") == Some(RealArray(NotProvidedCovariance))
  {
    ImuObject(header, AttitudeJson(motion.attitude), RealArray(NotProvidedCovariance),
              VectorJson(motion.rotationRate), RealArray(NotProvidedCovariance),
              VectorJson(motion.userAcceleration), RealArray(NotProvidedCovariance))
  }

  /** The rosbridge publish dictionary. */
  function RequestJson(topic: string, msg: Json): (j: Json)
    ensures Get(j, "op") == Some(JString("publish"))
    ensures Get(j, "topic") == Some(JString(topic))
    ensures Get(j, "msg") == Some(msg)
  {
    var ms := [Member("op", JString("publish")), Member("topic", JString(topic)), Member("msg", msg)];
    GetDistinct(ms);
    assert ms[0].key == "op" && ms[1].key == "topic" && ms[2].key == "msg";
    JObject(ms)
  }

  /** The whole request `publishMotion` builds for the current counter. */
  function MotionRequest(seqNumber: int, topic: string, t: real, frameId: string, motion: DeviceMotion): Json {
    RequestJson(topic, ImuJson(HeaderJson(seqNumber, SplitStamp(t), frameId), motion))
  }

  /** The request is a publish on `topic` whose header carries the counter, the split stamp and the frame id. */
  lemma MotionRequestShape(seqNumber: int, topic: string, t: real, frameId: string, motion: DeviceMotion)
    ensures var j := MotionRequest(seqNumber, topic, t, frameId, motion);
      && Get(j, "op") == Some(JString("publish"))
      && Get(j, "topic") == Some(JString(topic))
      && Get(j, "msg").Some?
      && Get(Get(j, "msg").value, "header").Some?
      && Get(Get(Get(j, "msg").value, "header").value, "seq") == Some(JInt(seqNumber))
      && Get(Get(Get(j, "msg").value, "header").value, "frame_id") == Some(JString(frameId))
      && Get(Get(Get(j, "msg").value, "header").value, "stamp") == Some(StampJson(SplitStamp(t)))
      && Get(Get(j, "msg").value, "linear_acceleration") == Some(VectorJson(motion.userAcceleration))
  {
  }

  // ---------------------------------------------------------------------------
  // publishMotion

  /**
   * `JSONSerialization.data(withJSONObject:)`: the bytes of a tree, or
   * `None` when the object is not valid JSON. That case is an Objective-C
   * exception, which `try?` does not catch: the app traps.
   */
  type Serializer = Json -> Option<string>

  /** How the platform prints a `Double`; `None` for NaN and the infinities. */
  type RealFormatter = real -> Option<string>

  /** `JSONSerialization` with no options: slashes are escaped. */
  function JsonSerialization(formatReal: RealFormatter): Serializer {
    j => Write(WriterOptions(true, formatReal), j)
  }

  /** `JSONSerialization` rejects exactly a tree holding a number it cannot print. */
  lemma JsonSerializationFailsOnlyOnNumbers(formatReal: RealFormatter, j: Json)
    ensures JsonSerialization(formatReal)(j).Some? <==> Encodable(WriterOptions(true, formatReal), j)
  {
    WriteSucceedsIffEncodable(WriterOptions(true, formatReal), j);
  }

  /** A message handed to the task numbered `socketId`. */
  datatype Delivery = Delivery(socketId: nat, message: Message)

  datatype Publication = Publication(publisher: Publisher, sent: Option<Delivery>)

  /**
   * What `publishMotion` does once serialisation has run. A rejected tree
   * traps (`None`); otherwise the data is sent to the current task, if any,
   * and the counter advances whether or not there was a task.
   */
  function Publish(p: Publisher, text: Option<string>): (r: Option<Publication>)
    ensures r.None? <==> text.None?
    ensures r.Some? ==> r.value.publisher == p.(sequenceNumber := p.sequenceNumber + 1)
    ensures r.Some? ==> (r.value.sent.Some? <==> p.socket.Some?)
    ensures r.Some? && r.value.sent.Some? ==> r.value.sent.value == Delivery(p.socket.value.id, DataMessage(text.value))
  {
    if text.None? then None
    else
      var sent := if p.socket.Some? then Some(Delivery(p.socket.value.id, DataMessage(text.value))) else None;
      Some(Publication(p.(sequenceNumber := p.sequenceNumber + 1), sent))
  }

  /** A sample to publish, as the serialised request it becomes under a given counter. */
  type Rendering = int -> Option<string>

  /**
   * The rendering of one `publishMotion(topicName:stamp:frameId:motion:)`
   * call, with `t` the stamp's seconds since 1970; `Publish` of it under the
   * current counter is that call.
   */
  function MotionRendering(serialize: Serializer, topic: string, t: real, frameId: string, motion: DeviceMotion): Rendering {
    n => serialize(MotionRequest(n, topic, t, frameId, motion))
  }

  /** A sequence of `publishMotion` calls: the publisher, the deliveries in order, and whether the app trapped. */
  datatype Session = Session(publisher: Publisher, deliveries: seq<Delivery>, trapped: bool)

  /** Publishes the samples in order, stopping at the first that traps. */
  function PublishAll(p: Publisher, samples: seq<Rendering>): (r: Session)
    decreases |samples|
  {
    if |samples| == 0 then Session(p, [], false)
    else
      match Publish(p, samples[0](p.sequenceNumber))
      case None => Session(p, [], true)
      case Some(first) =>
        var rest := PublishAll(first.publisher, samples[1..]);
        Session(rest.publisher, (if first.sent.Some? then [first.sent.value] else []) + rest.deliveries, rest.trapped)
  }

  /** How many of the samples serialise, each under the counter it is given, before the first that does not. */
  function Successes(n: int, samples: seq<Rendering>): (k: nat)
    ensures k <= |samples|
    ensures k < |samples| ==> samples[k](n + k).None?
    ensures forall i :: 0 <= i < k ==> samples[i](n + i).Some?
    decreases |samples|
  {
    if |samples| == 0 then 0
    else if samples[0](n).Some? then
      var k := Successes(n + 1, samples[1..]);
      assert forall i :: 1 <= i < 1 + k ==> samples[i](n + i) == samples[1..][i - 1](n + 1 + (i - 1));
      1 + k
    else 0
  }

  /**
   * The counter advances once per serialised sample and nothing else about
   * the publisher changes; the app traps exactly when some sample fails to
   * serialise.
   */
  lemma {:induction false} CounterCountsSuccesses(p: Publisher, samples: seq<Rendering>)
    ensures PublishAll(p, samples).publisher == p.(sequenceNumber := p.sequenceNumber + Successes(p.sequenceNumber, samples))
    ensures PublishAll(p, samples).trapped <==> Successes(p.sequenceNumber, samples) < |samples|
    decreases |samples|
  {
    if |samples| > 0 && samples[0](p.sequenceNumber).Some? {
      CounterCountsSuccesses(Publish(p, samples[0](p.sequenceNumber)).value.publisher, samples[1..]);
    }
  }

  /** With a task, every serialised sample is delivered to it, in order; without one, nothing is. */
  lemma {:induction false} DeliveriesCountSuccesses(p: Publisher, samples: seq<Rendering>)
    ensures |PublishAll(p, samples).deliveries| == if p.socket.Some? then Successes(p.sequenceNumber, samples) else 0
    ensures forall k :: 0 <= k < |PublishAll(p, samples).deliveries| ==> PublishAll(p, samples).deliveries[k].socketId == p.socket.value.id
    decreases |samples|
  {
    if |samples| > 0 && samples[0](p.sequenceNumber).Some? {
      DeliveriesCountSuccesses(Publish(p, samples[0](p.sequenceNumber)).value.publisher, samples[1..]);
    }
  }

  /** After a restart the next request is numbered 0 and goes to the new task; the counter is then 1. */
  lemma RestartThenPublish(p: Publisher, url: Url, sample: Rendering)
    requires sample(0).Some?
    ensures var q := RestartSession(p, url).publisher;
      && q.sequenceNumber == 0
      && Publish(q, sample(q.sequenceNumber)).Some?
      && Publish(q, sample(q.sequenceNumber)).value.publisher.sequenceNumber == 1
      && Publish(q, sample(q.sequenceNumber)).value.sent == Some(Delivery(p.created, DataMessage(sample(0).value)))
  {
  }
}
