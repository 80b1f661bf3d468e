/** The ROS message types the controller consumes and produces, reduced to the
    fields it reads or writes. Doubles are modelled as reals. */
module Messages {

  /** geometry_msgs/Point */
  datatype Point = Point(x: real, y: real, z: real)

  /** geometry_msgs/Quaternion */
  datatype Quaternion = Quaternion(x: real, y: real, z: real, w: real)

  /** geometry_msgs/Pose */
  datatype Pose = Pose(position: Point, orientation: Quaternion)

  /** std_msgs/Header: only the frame name is read by the controller. */
  datatype Header = Header(frameId: string)

  /** geometry_msgs/PoseStamped, the payload of the goal topic. */
  datatype PoseStamped = PoseStamped(header: Header, pose: Pose)

  /** geometry_msgs/Vector3 */
  datatype Vector3 = Vector3(x: real, y: real, z: real)

  /** geometry_msgs/Twist, the velocity command. */
  datatype Twist = Twist(linear: Vector3, angular: Vector3)

  /** A default-constructed Twist: every component zero, i.e. "stop". */
  const ZeroTwist: Twist := Twist(Vector3(0.0, 0.0, 0.0), Vector3(0.0, 0.0, 0.0))

  /** sensor_msgs/LaserScan. The controller receives it but computes nothing from it. */
  datatype LaserScan = LaserScan(
    angleMin: real, angleMax: real, angleIncrement: real,
    rangeMin: real, rangeMax: real, ranges: seq<real>)
}
