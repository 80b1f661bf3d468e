/** The node's object: an immutable configuration and the one mutable field, the
    optional goal pose. Each callback is one atomic method (the mutex makes them so). */
module Controller {
  import opened Wrappers
  import opened Messages
  import opened LightSensor
  import opened ControlLaw

  class BraitenbergVehicleController {
    const config: Config
    var goalPose: Option<Pose>

    /** Reads the parameters (or their Defaults) and starts without a goal. */
    constructor (params: Parameters, kinematics: (real, real, real, real) -> Twist,
                 hypot: (real, real) -> real)
      ensures config == Configure(params, kinematics, hypot)
      ensures goalPose == None
    {
      config := Configure(params, kinematics, hypot);
      goalPose := None;
    }

    ghost function Mode(): Mode
      reads this
    {
      ModeOf(goalPose)
    }

    /** The scan message is received and ignored: no state changes. */
    method ScanCallback(scan: LaserScan)
      ensures unchanged(this)
      ensures goalPose == Step(config, old(goalPose), ScanReceived(scan))
    {
    }

    /** Stores the pose when its frame is the base frame, clears the goal otherwise;
        the rejection is silent. */
    method GoalPoseCallback(pose: PoseStamped)
      modifies this`goalPose
      ensures goalPose == Step(config, old(goalPose), GoalReceived(pose))
      ensures goalPose.Some? <==> pose.header.frameId == config.baseLinkFrameId
      ensures goalPose.Some? ==> goalPose.value == pose.pose
      ensures Mode() == (if pose.header.frameId == config.baseLinkFrameId then Seeking else Idle)
    {
      if pose.header.frameId == config.baseLinkFrameId {
        goalPose := Some(pose.pose);
      } else {
        goalPose := None;
      }
    }

    /** One control tick: the command it publishes. It changes no state. */
    method TimerCallback() returns (cmd: Twist)
      ensures cmd == Command(config, goalPose)
      ensures goalPose.None? ==> cmd == ZeroTwist
      ensures goalPose.Some? ==> cmd == config.motionModel.GetTwist(
        Emulate(goalPose, config.xOffset, -config.yOffset, config.hypot),
        Emulate(goalPose, config.xOffset, config.yOffset, config.hypot))
    {
      if goalPose.Some? {
        // the right-mounted sensor (negative y) feeds the left input and vice versa
        cmd := config.motionModel.GetTwist(
          EmulateLightSensor(config.xOffset, config.yOffset * -1.0),
          EmulateLightSensor(config.xOffset, config.yOffset));
      } else {
        cmd := ZeroTwist;
      }
    }

    /** emulate_light_sensor as a const member: it reads the goal and changes nothing. */
    function EmulateLightSensor(xOffset: real, yOffset: real): (r: real)
      reads this
      ensures r == 0.0 <==> goalPose.None?
      ensures r == Emulate(goalPose, xOffset, yOffset, config.hypot)
    {
      Emulate(goalPose, xOffset, yOffset, config.hypot)
    }
  }

  /** A goal in a foreign frame stops the vehicle on the next tick, whatever the goal was. */
  method ForeignFrameStops(c: BraitenbergVehicleController, pose: Pose) returns (cmd: Twist)
    requires c.config.baseLinkFrameId == "base_link"
    modifies c
    ensures c.goalPose == None && cmd == ZeroTwist
  {
    c.GoalPoseCallback(PoseStamped(Header("map"), pose));
    cmd := c.TimerCallback();
  }

  /** An accepted goal survives scans and ticks and drives the crossed motion model. */
  method AcceptedGoalSeeks(kinematics: (real, real, real, real) -> Twist,
                           hypot: (real, real) -> real, scan: LaserScan)
    returns (cmd: Twist)
    requires Euclidean(hypot)
    ensures exists right: real :: 0.98 < right < 0.981 &&
              cmd == kinematics(Defaults.wheelRadius, Defaults.wheelBase, right, 1.0)
  {
    var c := new BraitenbergVehicleController(Defaults, kinematics, hypot);
    var goal := Pose(Point(1.1, 0.1, 0.0), Quaternion(0.0, 0.0, 0.0, 1.0));
    c.GoalPoseCallback(PoseStamped(Header("base_link"), goal));
    c.ScanCallback(scan);
    var first := c.TimerCallback();
    cmd := c.TimerCallback();
    DefaultScenario(c.config, goal);
    var right := Emulate(Some(goal), c.config.xOffset, -c.config.yOffset, c.config.hypot);
    assert cmd == kinematics(Defaults.wheelRadius, Defaults.wheelBase, right, 1.0);
  }
}
