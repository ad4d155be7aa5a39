/**
 * AirSense's ROS message values and rosbridge requests
 * (AirSense/RosbridgeUtilities.swift).
 *
 * Each Swift struct is a datatype, each initialiser a function (Swift's
 * default arguments are Dafny default parameters), and `Encodable` is a
 * function to a JSON tree whose members follow the Swift declaration order.
 */
module AirSenseRosbridgeUtilities {
  import opened Wrappers
  import opened SwiftNumerics
  import opened Platform
  import opened Json
  import opened RosImuObject

  // ---------------------------------------------------------------------------
  // Time

  /** `RosTime`; the `usec` field is filled in nanoseconds by the corrected conversion. */
  datatype RosTime = RosTime(sec: int, usec: int)

  /** The multiplier the conversion uses: sub-second units per second. */
  const UnitsPerSecond: int := 1_000_000_000

  /** `RosTime(sec:usec:)`, with its defaults. */
  function MakeTime(sec: int := 0, usec: int := 0): RosTime {
    RosTime(sec, usec)
  }

  /**
   * `RosTime(timeInterval:)` as written: the fraction is converted to `Int`
   * before it is multiplied, so the sub-second field is always zero.
   */
  function TimeFromIntervalAsWritten(t: real): (r: RosTime)
    ensures r.sec == Trunc(t)
    ensures r.usec == 0
  {
    var sec := Trunc(t);
    RosTime(sec, Trunc(t - sec as real) * UnitsPerSecond)
  }

  /**
   * `RosTime(timeInterval:)` as intended: the fraction is scaled first. For
   * a non-negative interval the result is the interval rounded down to a
   * whole number of nanoseconds.
   */
  function TimeFromInterval(t: real): (r: RosTime)
    ensures r.sec == Trunc(t)
    ensures 0.0 <= t ==> 0 <= r.usec < UnitsPerSecond
    ensures 0.0 <= t ==>
      r.sec as real + r.usec as real / 1_000_000_000.0 <= t < r.sec as real + (r.usec + 1) as real / 1_000_000_000.0
  {
    var sec := Trunc(t);
    RosTime(sec, Trunc((t - sec as real) * UnitsPerSecond as real))
  }

  /** The discrepancy: one and a half seconds loses its half second as written. */
  lemma AsWrittenDropsFraction()
    ensures TimeFromIntervalAsWritten(1.5) == RosTime(1, 0)
    ensures TimeFromInterval(1.5) == RosTime(1, 500_000_000)
  {
    assert Trunc(1.5) == 1;
    assert Trunc(0.5 * 1_000_000_000.0) == 500_000_000;
  }

  /** For a non-negative interval the two agree exactly when its fraction is under a nanosecond. */
  lemma ConversionsAgreeBelowOneNanosecond(t: real)
    requires 0.0 <= t
    ensures TimeFromIntervalAsWritten(t) == TimeFromInterval(t) <==> t - Trunc(t) as real < 1.0 / 1_000_000_000.0
  {
    var frac := t - Trunc(t) as real;
    if frac < 1.0 / 1_000_000_000.0 {
      assert 0.0 <= frac * 1_000_000_000.0 < 1.0;
      TruncOfFractionIsZero(frac * 1_000_000_000.0);
    }
  }

  function TimeJson(t: RosTime): (j: Json)
    ensures Get(j, "sec") == Some(JInt(t.sec)) && Get(j, "usec") == Some(JInt(t.usec))
  {
    var ms := [Member("sec", JInt(t.sec)), Member("usec", JInt(t.usec))];
    GetDistinct(ms);
    assert ms[0].key == "sec" && ms[1].key == "usec";
    JObject(ms)
  }

  // ---------------------------------------------------------------------------
  // Header, Quaternion, Vector3

  /** `std_msgs/Header`; `seq` is a constant 0, not a stored field. */
  datatype RosHeader = RosHeader(stamp: RosTime, frameId: string) {
    const seqNumber: int := 0
  }

  /** `RosHeader(stamp:frame_id:)`, defaulting to the zero time and an empty frame id. */
  function MakeHeader(stamp: RosTime := MakeTime(), frameId: string := ""): RosHeader {
    RosHeader(stamp, frameId)
  }

  function HeaderJson(h: RosHeader): (j: Json)
    ensures Get(j, "seq") == Some(JInt(0))
    ensures Get(j, "stamp") == Some(TimeJson(h.stamp))
    ensures Get(j, "frame_id") == Some(JString(h.frameId))
  {
    var ms := [Member("seq", JInt(h.seqNumber)), Member("stamp", TimeJson(h.stamp)), Member("frame_id", JString(h.frameId))];
    GetDistinct(ms);
    assert ms[0].key == "seq" && ms[1].key == "stamp" && ms[2].key == "frame_id";
    JObject(ms)
  }

  /** `geometry_msgs/Quaternion`. */
  datatype RosQuaternion = RosQuaternion(x: real, y: real, z: real, w: real)

  /** `RosQuaternion(x:y:z:w:)`; the defaults are the identity rotation. */
  function MakeQuaternion(x: real := 0.0, y: real := 0.0, z: real := 0.0, w: real := 1.0): RosQuaternion {
    RosQuaternion(x, y, z, w)
  }

  /** `RosQuaternion(quaternion:)` and `RosQuaternion(_: simd_quatf)`: the components, copied. */
  function QuaternionFrom(q: Quaternion): (r: RosQuaternion)
    ensures r.x == q.x && r.y == q.y && r.z == q.z && r.w == q.w
  {
    RosQuaternion(q.x, q.y, q.z, q.w)
  }

  function QuaternionJson(q: RosQuaternion): (j: Json)
    ensures Get(j, "x") == Some(JReal(q.x)) && Get(j, "y") == Some(JReal(q.y))
    ensures Get(j, "z") == Some(JReal(q.z)) && Get(j, "w") == Some(JReal(q.w))
  {
    var ms := [Member("x", JReal(q.x)), Member("y", JReal(q.y)), Member("z", JReal(q.z)), Member("w", JReal(q.w))];
    GetDistinct(ms);
    assert ms[0].key == "x" && ms[1].key == "y" && ms[2].key == "z" && ms[3].key == "w";
    JObject(ms)
  }

  /** `geometry_msgs/Vector3`. */
  datatype RosVector3 = RosVector3(x: real, y: real, z: real)

  /** `RosVector3(x:y:z:)`; the defaults are the zero vector. */
  function MakeVector3(x: real := 0.0, y: real := 0.0, z: real := 0.0): RosVector3 {
    RosVector3(x, y, z)
  }

  /** `RosVector3(rotationRate:)`, `(acceleration:)` and `(_: simd_float3)`: the components, copied. */
  function Vector3From(v: Vec3): (r: RosVector3)
    ensures r.x == v.x && r.y == v.y && r.z == v.z
  {
    RosVector3(v.x, v.y, v.z)
  }

  function Vector3Json(v: RosVector3): (j: Json)
    ensures Get(j, "x") == Some(JReal(v.x)) && Get(j, "y") == Some(JReal(v.y)) && Get(j, "z") == Some(JReal(v.z))
  {
    var ms := [Member("x", JReal(v.x)), Member("y", JReal(v.y)), Member("z", JReal(v.z))];
    GetDistinct(ms);
    assert ms[0].key == "x" && ms[1].key == "y" && ms[2].key == "z";
    JObject(ms)
  }

  /** The defaults of the message values: zero time, `seq` 0, no frame id, identity rotation, zero vector. */
  lemma Defaults()
    ensures MakeTime() == RosTime(0, 0)
    ensures MakeHeader().seqNumber == 0 && MakeHeader().stamp == RosTime(0, 0) && MakeHeader().frameId == ""
    ensures MakeQuaternion() == RosQuaternion(0.0, 0.0, 0.0, 1.0)
    ensures MakeVector3() == RosVector3(0.0, 0.0, 0.0)
  {
  }

  // ---------------------------------------------------------------------------
  // Imu

  /** The "not computed" covariance: nine zeros. */
  const ZeroCovariance: seq<real> := [0.0, 0.0, 0.0, 0.0, 0.0, 0.0, 0.0, 0.0, 0.0]

  /** A 3x3 covariance in row-major order, every entry zero. */
  predicate IsZeroCovariance(c: seq<real>) {
    |c| == 9 && forall k :: 0 <= k < |c| ==> c[k] == 0.0
  }

  /** `sensor_msgs/Imu`. */
  datatype RosImu = RosImu(
    header: RosHeader,
    orientation: RosQuaternion,
    orientationCovariance: seq<real>,
    angularVelocity: RosVector3,
    angularVelocityCovariance: seq<real>,
    linearAcceleration: RosVector3,
    linearAccelerationCovariance: seq<real>)

  /** `RosImu(header:orientation:...)`: a covariance that is not supplied becomes nine zeros. */
  function MakeImu(header: RosHeader := MakeHeader(),
                   orientation: RosQuaternion := MakeQuaternion(),
                   orientationCovariance: Option<seq<real>> := None,
                   angularVelocity: RosVector3 := MakeVector3(),
                   angularVelocityCovariance: Option<seq<real>> := None,
                   linearAcceleration: RosVector3 := MakeVector3(),
                   linearAccelerationCovariance: Option<seq<real>> := None): (r: RosImu)
    ensures r.header == header && r.orientation == orientation
    ensures r.angularVelocity == angularVelocity && r.linearAcceleration == linearAcceleration
    ensures orientationCovariance.Some? ==> r.orientationCovariance == orientationCovariance.value
    ensures orientationCovariance.None? ==> IsZeroCovariance(r.orientationCovariance)
    ensures angularVelocityCovariance.Some? ==> r.angularVelocityCovariance == angularVelocityCovariance.value
    ensures angularVelocityCovariance.None? ==> IsZeroCovariance(r.angularVelocityCovariance)
    ensures linearAccelerationCovariance.Some? ==> r.linearAccelerationCovariance == linearAccelerationCovariance.value
    ensures linearAccelerationCovariance.None? ==> IsZeroCovariance(r.linearAccelerationCovariance)
  {
    RosImu(header, orientation, orientationCovariance.GetOr(ZeroCovariance),
           angularVelocity, angularVelocityCovariance.GetOr(ZeroCovariance),
           linearAcceleration, linearAccelerationCovariance.GetOr(ZeroCovariance))
  }

  /**
   * `RosImu(motion:frameId:)`: attitude and rotation rate copied, linear
   * acceleration the sum of gravity and user acceleration, zero covariances.
   * The stamp is `RosTime(timeInterval:)` as written: the whole seconds,
   * with the sub-second field 0.
   */
  function ImuFromMotion(motion: DeviceMotion, frameId: string): (r: RosImu)
    ensures r.header.stamp == RosTime(Trunc(motion.timestamp), 0) && r.header.frameId == frameId
    ensures r.orientation == QuaternionFrom(motion.attitude)
    ensures r.angularVelocity == Vector3From(motion.rotationRate)
    ensures r.linearAcceleration.x == motion.gravity.x + motion.userAcceleration.x
    ensures r.linearAcceleration.y == motion.gravity.y + motion.userAcceleration.y
    ensures r.linearAcceleration.z == motion.gravity.z + motion.userAcceleration.z
    ensures IsZeroCovariance(r.orientationCovariance)
    ensures IsZeroCovariance(r.angularVelocityCovariance)
    ensures IsZeroCovariance(r.linearAccelerationCovariance)
  {
    MakeImu(header := MakeHeader(stamp := TimeFromIntervalAsWritten(motion.timestamp), frameId := frameId),
            orientation := QuaternionFrom(motion.attitude),
            angularVelocity := Vector3From(motion.rotationRate),
            linearAcceleration := MakeVector3(x := motion.gravity.x + motion.userAcceleration.x,
                                              y := motion.gravity.y + motion.userAcceleration.y,
                                              z := motion.gravity.z + motion.userAcceleration.z))
  }

  function ImuJson(m: RosImu): (j: Json)
    ensures Get(j, "header") == Some(HeaderJson(m.header))
    ensures Get(j, "orientation") == Some(QuaternionJson(m.orientation))
    ensures Get(j, "orientation_covariance") == Some(RealArray(m.orientationCovariance))
    ensures Get(j, "angular_velocity") == Some(Vector3Json(m.angularVelocity))
    ensures Get(j, "angular_velocity_covariance") == Some(RealArray(m.angularVelocityCovariance))
    ensures Get(j, "linear_acceleration") == Some(Vector3Json(m.linearAcceleration))
    ensures Get(j, "linear_acceleration_covariance") == Some(RealArray(m.linearAccelerationCovariance))
  {
    ImuObject(HeaderJson(m.header), QuaternionJson(m.orientation), RealArray(m.orientationCovariance),
              Vector3Json(m.angularVelocity), RealArray(m.angularVelocityCovariance),
              Vector3Json(m.linearAcceleration), RealArray(m.linearAccelerationCovariance))
  }

  // ---------------------------------------------------------------------------
  // Transform

  /** `geometry_msgs/Transform`. */
  datatype RosTransform = RosTransform(translation: RosVector3, rotation: RosQuaternion)

  /** `RosTransform(translation:rotation:)`, defaulting to the identity transform. */
  function MakeTransform(translation: RosVector3 := MakeVector3(), rotation: RosQuaternion := MakeQuaternion()): RosTransform {
    RosTransform(translation, rotation)
  }

  /** `simd_quatf(_: simd_float3x3)`: platform code, passed in. */
  type RotationToQuaternion = Matrix3 -> Quaternion

  /** The upper-left 3x3 block: the first three entries of the first three columns. */
  function Rotation(m: Matrix4): (r: Matrix3)
    ensures forall c, k :: 0 <= c < 3 && 0 <= k < 3 ==> r[c][k] == m[c][k]
  {
    [m[0][..3], m[1][..3], m[2][..3]]
  }

  /**
   * `RosTransform(_: simd_float4x4)`: translation from the first three
   * entries of column 3, rotation from the upper-left 3x3 block.
   */
  function TransformFromMatrix(m: Matrix4, toQuaternion: RotationToQuaternion): (r: RosTransform)
    ensures r.translation == RosVector3(m[3][0], m[3][1], m[3][2])
    ensures r.rotation == QuaternionFrom(toQuaternion(Rotation(m)))
  {
    RosTransform(Vector3From(Vec3(m[3][0], m[3][1], m[3][2])), QuaternionFrom(toQuaternion(Rotation(m))))
  }

  function TransformJson(t: RosTransform): (j: Json)
    ensures Get(j, "translation") == Some(Vector3Json(t.translation))
    ensures Get(j, "rotation") == Some(QuaternionJson(t.rotation))
  {
    var ms := [Member("translation", Vector3Json(t.translation)), Member("rotation", QuaternionJson(t.rotation))];
    GetDistinct(ms);
    assert ms[0].key == "translation" && ms[1].key == "rotation";
    JObject(ms)
  }

  // ---------------------------------------------------------------------------
  // rosbridge requests

  /** `RosbridgeAdvertiseRequest`; `op` is a constant. */
  datatype AdvertiseRequest = AdvertiseRequest(topic: string, msgType: string) {
    const op: string := "advertise"
  }

  /** `RosbridgeUnadvertiseRequest`. */
  datatype UnadvertiseRequest = UnadvertiseRequest(topic: string) {
    const op: string := "unadvertise"
  }

  /** `RosbridgePublishRequest<Msg>`: the message is carried as its JSON tree. */
  datatype PublishRequest = PublishRequest(topic: string, msg: Json) {
    const op: string := "publish"
  }

  function AdvertiseJson(r: AdvertiseRequest): (j: Json)
    ensures Get(j, "op") == Some(JString("advertise"))
    ensures Get(j, "topic") == Some(JString(r.topic))
    ensures Get(j, "type") == Some(JString(r.msgType))
    ensures Integral(j)
  {
    var ms := [Member("op", JString(r.op)), Member("topic", JString(r.topic)), Member("type", JString(r.msgType))];
    GetDistinct(ms);
    assert ms[0].key == "op" && ms[1].key == "topic" && ms[2].key == "type";
    JObject(ms)
  }

  function UnadvertiseJson(r: UnadvertiseRequest): (j: Json)
    ensures Get(j, "op") == Some(JString("unadvertise"))
    ensures Get(j, "topic") == Some(JString(r.topic))
    ensures Integral(j)
  {
    var ms := [Member("op", JString(r.op)), Member("topic", JString(r.topic))];
    GetDistinct(ms);
    assert ms[0].key == "op" && ms[1].key == "topic";
    JObject(ms)
  }

  function PublishJson(r: PublishRequest): (j: Json)
    ensures Get(j, "op") == Some(JString("publish"))
    ensures Get(j, "topic") == Some(JString(r.topic))
    ensures Get(j, "msg") == Some(r.msg)
  {
    var ms := [Member("op", JString(r.op)), Member("topic", JString(r.topic)), Member("msg", r.msg)];
    GetDistinct(ms);
    assert ms[0].key == "op" && ms[1].key == "topic" && ms[2].key == "msg";
    JObject(ms)
  }

  // ---------------------------------------------------------------------------
  // encodeForWebSocket

  /** How the platform prints a `Double`; `None` where `JSONEncoder` throws. */
  type RealFormatter = real -> Option<string>

  /** The `JSONEncoder` the function configures: slashes are not escaped. */
  function EncoderOptions(formatReal: RealFormatter): WriterOptions {
    WriterOptions(false, formatReal)
  }

  /** `encodeForWebSocket(object:)`: a data message, or `None` when encoding fails. */
  function EncodeForWebSocket(formatReal: RealFormatter, obj: Json): (r: Option<Message>)
    ensures r.Some? <==> Encodable(EncoderOptions(formatReal), obj)
    ensures r.Some? ==> r.value.DataMessage? && Some(r.value.bytes) == Write(EncoderOptions(formatReal), obj)
  {
    WriteSucceedsIffEncodable(EncoderOptions(formatReal), obj);
    var text := Write(EncoderOptions(formatReal), obj);
    if text.Some? then Some(DataMessage(text.value)) else None
  }

  /** An advertise request is always encoded, whatever the real formatter. */
  lemma AdvertiseAlwaysEncodes(formatReal: RealFormatter, r: AdvertiseRequest)
    ensures EncodeForWebSocket(formatReal, AdvertiseJson(r)).Some?
  {
    IntegralIsEncodable(EncoderOptions(formatReal), AdvertiseJson(r));
  }

  /**
   * The encoded advertise request, member by member: a type name with
   * slashes (such as `sensor_msgs/Imu`) appears literally, never as `\\/`.
   */
  lemma AdvertiseTypeWrittenLiterally(formatReal: RealFormatter, r: AdvertiseRequest)
    requires Plain(r.msgType)
    ensures EncodeForWebSocket(formatReal, AdvertiseJson(r))
         == Some(DataMessage("{" + JoinComma([Quote(false, "op") + ":" + Quote(false, "advertise"),
                                              Quote(false, "topic") + ":" + Quote(false, r.topic),
                                              Quote(false, "type") + ":" + ("\"" + r.msgType + "\"")]) + "}"))
  {
    WriteStringObject(EncoderOptions(formatReal), "op", "advertise", "topic", r.topic, "type", r.msgType);
    PlainEscapesToItself(false, r.msgType);
    AdvertiseAlwaysEncodes(formatReal, r);
  }
}
