/**
 * The platform values the core receives from CoreMotion, ARKit and
 * URLSession. They are inputs: the managers that produce them are not
 * modelled. Every `Double` is a `real`.
 */
module Platform {

  /** `CMQuaternion`. */
  datatype Quaternion = Quaternion(x: real, y: real, z: real, w: real)

  /** `CMRotationRate`, `CMAcceleration` and `simd_float3`: three components. */
  datatype Vec3 = Vec3(x: real, y: real, z: real)

  /** Componentwise sum. */
  function Add(a: Vec3, b: Vec3): Vec3 {
    Vec3(a.x + b.x, a.y + b.y, a.z + b.z)
  }

  /** The fields of `CMDeviceMotion` that the core reads. */
  datatype DeviceMotion = DeviceMotion(
    timestamp: real,
    attitude: Quaternion,
    rotationRate: Vec3,
    userAcceleration: Vec3,
    gravity: Vec3)

  /** `simd_float4x4`: four columns of four entries; `m[c][r]` is Swift's `m[c, r]`. */
  type Matrix4 = m: seq<seq<real>> | |m| == 4 && forall c :: 0 <= c < 4 ==> |m[c]| == 4
    witness [[0.0, 0.0, 0.0, 0.0], [0.0, 0.0, 0.0, 0.0], [0.0, 0.0, 0.0, 0.0], [0.0, 0.0, 0.0, 0.0]]

  /** `simd_float3x3`: three columns of three entries. */
  type Matrix3 = m: seq<seq<real>> | |m| == 3 && forall c :: 0 <= c < 3 ==> |m[c]| == 3
    witness [[0.0, 0.0, 0.0], [0.0, 0.0, 0.0], [0.0, 0.0, 0.0]]

  /** `CMAuthorizationStatus`; `Unrecognized` stands for cases added by later OS versions. */
  datatype AuthorizationStatus = NotDetermined | Restricted | Denied | Authorized | Unrecognized(raw: int)

  /** A platform `Error` value, carried through and never inspected. */
  datatype PlatformError = PlatformError(domain: string, code: int)

  /** `URLSessionWebSocketTask.CloseCode`, carried through and never inspected. */
  datatype CloseCode = CloseCode(raw: int)

  /** `URLSessionWebSocketTask.Message`; the core only ever builds `.data`. */
  datatype Message = DataMessage(bytes: string) | StringMessage(text: string)
}
