/**
 * The member layout of a `sensor_msgs/Imu` message, shared by every
 * revision's encoder: seven members in declaration order.
 */
module RosImuObject {
  import opened Wrappers
  import opened Json

  /** The `sensor_msgs/Imu` object built from its encoded fields. */
  function ImuObject(header: Json, orientation: Json, orientationCovariance: Json,
                     angularVelocity: Json, angularVelocityCovariance: Json,
                     linearAcceleration: Json, linearAccelerationCovariance: Json): (j: Json)
    ensures Get(j, "header") == Some(header)
    ensures Get(j, "orientation") == Some(orientation)
    ensures Get(j, "orientation_covariance") == Some(orientationCovariance)
    ensures Get(j, "angular_velocity") == Some(angularVelocity)
    ensures Get(j, "angular_velocity_covariance") == Some(angularVelocityCovariance)
    ensures Get(j, "linear_acceleration") == Some(linearAcceleration)
    ensures Get(j, "linear_acceleration_covariance") == Some(linearAccelerationCovariance)
  {
    var ms := [Member("header", header), Member("orientation", orientation),
               Member("orientation_covariance", orientationCovariance),
               Member("angular_velocity", angularVelocity), Member("angular_velocity_covariance", angularVelocityCovariance),
               Member("linear_acceleration", linearAcceleration),
               Member("linear_acceleration_covariance", linearAccelerationCovariance)];
    GetDistinct(ms);
    assert ms[0].key == "header" && ms[1].key == "orientation" && ms[2].key == "orientation_covariance";
    assert ms[3].key == "angular_velocity" && ms[4].key == "angular_velocity_covariance";
    assert ms[5].key == "linear_acceleration" && ms[6].key == "linear_acceleration_covariance";
    JObject(ms)
  }
}
