/**
 * HeadphoneMotionPub's ROS message values and rosbridge requests
 * (HeadphoneMotionPub/RosbridgeUtilities.swift).
 *
 * An earlier revision than AirSense's: the header stores a `seq` that its
 * initialiser forces to 0, the IMU covariances are fixed at the ROS "not
 * provided" value, and there is no transform message.
 */
module HmpRosbridgeUtilities {
  import opened Wrappers
  import opened SwiftNumerics
  import opened Platform
  import opened Json
  import opened RosImuObject

  // ---------------------------------------------------------------------------
  // Time

  /** `RosTime`; the `usec` field is filled in nanoseconds by the corrected conversion. */
  datatype RosTime = RosTime(sec: int, usec: int)

  /** The multiplier the conversion uses: sub-second units per second. */
  const UnitsPerSecond: int := 1_000_000_000

  /** `RosTime(sec:usec:)`, with its defaults. */
  function MakeTime(sec: int := 0, usec: int := 0): RosTime {
    RosTime(sec, usec)
  }

  /** `RosTime(timeInterval:)` as written: the fraction becomes an `Int` before it is scaled. */
  function TimeFromIntervalAsWritten(t: real): (r: RosTime)
    ensures r.sec == Trunc(t)
    ensures r.usec == 0
  {
    var sec := Trunc(t);
    RosTime(sec, Trunc(t - sec as real) * UnitsPerSecond)
  }

  /** `RosTime(timeInterval:)` as intended: the fraction is scaled, then truncated. */
  function TimeFromInterval(t: real): (r: RosTime)
    ensures r.sec == Trunc(t)
    ensures 0.0 <= t ==> 0 <= r.usec < UnitsPerSecond
    ensures 0.0 <= t ==>
      r.sec as real + r.usec as real / 1_000_000_000.0 <= t < r.sec as real + (r.usec + 1) as real / 1_000_000_000.0
  {
    var sec := Trunc(t);
    RosTime(sec, Trunc((t - sec as real) * UnitsPerSecond as real))
  }

  /** The discrepancy, on a quarter second past two seconds. */
  lemma AsWrittenDropsFraction()
    ensures TimeFromIntervalAsWritten(2.25) == RosTime(2, 0)
    ensures TimeFromInterval(2.25) == RosTime(2, 250_000_000)
  {
    assert Trunc(2.25) == 2;
    assert Trunc(0.25 * 1_000_000_000.0) == 250_000_000;
  }

  function TimeJson(t: RosTime): (j: Json)
    ensures Get(j, "sec") == Some(JInt(t.sec)) && Get(j, "usec") == Some(JInt(t.usec))
  {
    var ms := [Member("sec", JInt(t.sec)), Member("usec", JInt(t.usec))];
    GetDistinct(ms);
    assert ms[0].key == "sec" && ms[1].key == "usec";
    JObject(ms)
  }

  // ---------------------------------------------------------------------------
  // Header, Quaternion, Vector3

  /** `std_msgs/Header`, whose `seq` is a stored field. */
  datatype RosHeader = RosHeader(seqNumber: int, stamp: RosTime, frameId: string)

  /** `RosHeader(seq:stamp:frame_id:)`: the `seq` argument is accepted and ignored. */
  function MakeHeader(seqNumber: int := 0, stamp: RosTime := MakeTime(), frameId: string := ""): (r: RosHeader)
    ensures r.seqNumber == 0
    ensures r.stamp == stamp && r.frameId == frameId
  {
    RosHeader(0, stamp, frameId)
  }

  /** Two headers built from the same stamp and frame id are equal, whatever `seq` was asked for. */
  lemma HeaderIgnoresSeq(a: int, b: int, stamp: RosTime, frameId: string)
    ensures MakeHeader(a, stamp, frameId) == MakeHeader(b, stamp, frameId)
  {
  }

  function HeaderJson(h: RosHeader): (j: Json)
    ensures Get(j, "seq") == Some(JInt(h.seqNumber))
    ensures Get(j, "stamp") == Some(TimeJson(h.stamp))
    ensures Get(j, "frame_id") == Some(JString(h.frameId))
  {
    var ms := [Member("seq", JInt(h.seqNumber)), Member("stamp", TimeJson(h.stamp)), Member("frame_id", JString(h.frameId))];
    GetDistinct(ms);
    assert ms[0].key == "seq" && ms[1].key == "stamp" && ms[2].key == "frame_id";
    JObject(ms)
  }

  /** `geometry_msgs/Quaternion`. */
  datatype RosQuaternion = RosQuaternion(x: real, y: real, z: real, w: real)

  /** `RosQuaternion(x:y:z:w:)`; the defaults are the identity rotation. */
  function MakeQuaternion(x: real := 0.0, y: real := 0.0, z: real := 0.0, w: real := 1.0): RosQuaternion {
    RosQuaternion(x, y, z, w)
  }

  /** `RosQuaternion(quaternion:)`: the components, copied. */
  function QuaternionFrom(q: Quaternion): (r: RosQuaternion)
    ensures r.x == q.x && r.y == q.y && r.z == q.z && r.w == q.w
  {
    RosQuaternion(q.x, q.y, q.z, q.w)
  }

  function QuaternionJson(q: RosQuaternion): (j: Json)
    ensures Get(j, "x") == Some(JReal(q.x)) && Get(j, "y") == Some(JReal(q.y))
    ensures Get(j, "z") == Some(JReal(q.z)) && Get(j, "w") == Some(JReal(q.w))
  {
    var ms := [Member("x", JReal(q.x)), Member("y", JReal(q.y)), Member("z", JReal(q.z)), Member("w", JReal(q.w))];
    GetDistinct(ms);
    assert ms[0].key == "x" && ms[1].key == "y" && ms[2].key == "z" && ms[3].key == "w";
    JObject(ms)
  }

  /** `geometry_msgs/Vector3`. */
  datatype RosVector3 = RosVector3(x: real, y: real, z: real)

  /** `RosVector3(x:y:z:)`; the defaults are the zero vector. */
  function MakeVector3(x: real := 0.0, y: real := 0.0, z: real := 0.0): RosVector3 {
    RosVector3(x, y, z)
  }

  /** `RosVector3(rotationRate:)` and `RosVector3(acceleration:)`: the components, copied. */
  function Vector3From(v: Vec3): (r: RosVector3)
    ensures r.x == v.x && r.y == v.y && r.z == v.z
  {
    RosVector3(v.x, v.y, v.z)
  }

  function Vector3Json(v: RosVector3): (j: Json)
    ensures Get(j, "x") == Some(JReal(v.x)) && Get(j, "y") == Some(JReal(v.y)) && Get(j, "z") == Some(JReal(v.z))
  {
    var ms := [Member("x", JReal(v.x)), Member("y", JReal(v.y)), Member("z", JReal(v.z))];
    GetDistinct(ms);
    assert ms[0].key == "x" && ms[1].key == "y" && ms[2].key == "z";
    JObject(ms)
  }

  /** The defaults: zero time, `seq` 0 and no frame id, identity rotation, zero vector. */
  lemma Defaults()
    ensures MakeTime() == RosTime(0, 0)
    ensures MakeHeader() == RosHeader(0, RosTime(0, 0), "")
    ensures MakeQuaternion() == RosQuaternion(0.0, 0.0, 0.0, 1.0)
    ensures MakeVector3() == RosVector3(0.0, 0.0, 0.0)
  {
  }

  // ---------------------------------------------------------------------------
  // Imu

  /** The ROS "not provided" covariance: -1 first, then eight zeros. */
  const NotProvidedCovariance: seq<real> := [-1.0, 0.0, 0.0, 0.0, 0.0, 0.0, 0.0, 0.0, 0.0]

  /**
   * `sensor_msgs/Imu`. The three covariances are constants with initial
   * values, so the memberwise initialiser cannot set them.
   */
  datatype RosImu = RosImu(header: RosHeader, orientation: RosQuaternion, angularVelocity: RosVector3, linearAcceleration: RosVector3) {
    const orientationCovariance: seq<real> := NotProvidedCovariance
    const angularVelocityCovariance: seq<real> := NotProvidedCovariance
    const linearAccelerationCovariance: seq<real> := NotProvidedCovariance
  }

  function ImuJson(m: RosImu): (j: Json)
    ensures Get(j, "header") == Some(HeaderJson(m.header))
    ensures Get(j, "orientation") == Some(QuaternionJson(m.orientation))
    ensures Get(j, "angular_velocity") == Some(Vector3Json(m.angularVelocity))
    ensures Get(j, "linear_acceleration") == Some(Vector3Json(m.linearAcceleration))
    ensures Get(j, "orientation_covariance") == Some(RealArray([-1.0, 0.0, 0.0, 0.0, 0.0, 0.0, 0.0, 0.0, 0.0]))
    ensures Get(j, "angular_velocity_covariance") == Some(RealArray([-1.0, 0.0, 0.0, 0.0, 0.0, 0.0, 0.0, 0.0, 0.0]))
    ensures Get(j, "linear_acceleration_covariance") == Some(RealArray([-1.0, 0.0, 0.0, 0.0, 0.0, 0.0, 0.0, 0.0, 0.0]))
  {
    ImuObject(HeaderJson(m.header), QuaternionJson(m.orientation), RealArray(m.orientationCovariance),
              Vector3Json(m.angularVelocity), RealArray(m.angularVelocityCovariance),
              Vector3Json(m.linearAcceleration), RealArray(m.linearAccelerationCovariance))
  }

  // ---------------------------------------------------------------------------
  // rosbridge requests

  /** `RosbridgeAdvertiseRequest`; `op` is a constant. */
  datatype AdvertiseRequest = AdvertiseRequest(topic: string, msgType: string) {
    const op: string := "advertise"
  }

  /** `RosbridgeUnadvertiseRequest`. */
  datatype UnadvertiseRequest = UnadvertiseRequest(topic: string) {
    const op: string := "unadvertise"
  }

  /** `RosbridgePublishRequest<Msg>`: the message is carried as its JSON tree. */
  datatype PublishRequest = PublishRequest(topic: string, msg: Json) {
    const op: string := "publish"
  }

  function AdvertiseJson(r: AdvertiseRequest): (j: Json)
    ensures Get(j, "op") == Some(JString("advertise"))
    ensures Get(j, "topic") == Some(JString(r.topic))
    ensures Get(j, "type") == Some(JString(r.msgType))
    ensures Integral(j)
  {
    var ms := [Member("op", JString(r.op)), Member("topic", JString(r.topic)), Member("type", JString(r.msgType))];
    GetDistinct(ms);
    assert ms[0].key == "op" && ms[1].key == "topic" && ms[2].key == "type";
    JObject(ms)
  }

  function UnadvertiseJson(r: UnadvertiseRequest): (j: Json)
    ensures Get(j, "op") == Some(JString("unadvertise"))
    ensures Get(j, "topic") == Some(JString(r.topic))
    ensures Integral(j)
  {
    var ms := [Member("op", JString(r.op)), Member("topic", JString(r.topic))];
    GetDistinct(ms);
    assert ms[0].key == "op" && ms[1].key == "topic";
    JObject(ms)
  }

  function PublishJson(r: PublishRequest): (j: Json)
    ensures Get(j, "op") == Some(JString("publish"))
    ensures Get(j, "topic") == Some(JString(r.topic))
    ensures Get(j, "msg") == Some(r.msg)
  {
    var ms := [Member("op", JString(r.op)), Member("topic", JString(r.topic)), Member("msg", r.msg)];
    GetDistinct(ms);
    assert ms[0].key == "op" && ms[1].key == "topic" && ms[2].key == "msg";
    JObject(ms)
  }

  // ---------------------------------------------------------------------------
  // encodeForWebSocket

  /** How the platform prints a `Double`; `None` where `JSONEncoder` throws. */
  type RealFormatter = real -> Option<string>

  /** The `JSONEncoder` the function configures: slashes are not escaped. */
  function EncoderOptions(formatReal: RealFormatter): WriterOptions {
    WriterOptions(false, formatReal)
  }

  /** `encodeForWebSocket(object:)`: a data message, or `None` when encoding fails. */
  function EncodeForWebSocket(formatReal: RealFormatter, obj: Json): (r: Option<Message>)
    ensures r.Some? <==> Encodable(EncoderOptions(formatReal), obj)
    ensures r.Some? ==> r.value.DataMessage? && Some(r.value.bytes) == Write(EncoderOptions(formatReal), obj)
  {
    WriteSucceedsIffEncodable(EncoderOptions(formatReal), obj);
    var text := Write(EncoderOptions(formatReal), obj);
    if text.Some? then Some(DataMessage(text.value)) else None
  }

  /** An advertise request is always encoded, whatever the real formatter. */
  lemma AdvertiseAlwaysEncodes(formatReal: RealFormatter, r: AdvertiseRequest)
    ensures EncodeForWebSocket(formatReal, AdvertiseJson(r)).Some?
  {
    IntegralIsEncodable(EncoderOptions(formatReal), AdvertiseJson(r));
  }

  /** The encoded advertise request: a type name with slashes appears literally. */
  lemma AdvertiseTypeWrittenLiterally(formatReal: RealFormatter, r: AdvertiseRequest)
    requires Plain(r.msgType)
    ensures EncodeForWebSocket(formatReal, AdvertiseJson(r))
         == Some(DataMessage("{" + JoinComma([Quote(false, "op") + ":" + Quote(false, "advertise"),
                                              Quote(false, "topic") + ":" + Quote(false, r.topic),
                                              Quote(false, "type") + ":" + ("\"" + r.msgType + "\"")]) + "}"))
  {
    WriteStringObject(EncoderOptions(formatReal), "op", "advertise", "topic", r.topic, "type", r.msgType);
    PlainEscapesToItself(false, r.msgType);
    AdvertiseAlwaysEncodes(formatReal, r);
  }
}
