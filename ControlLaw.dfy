/** The controller's behaviour as values: its configuration, the goal gate of the
    goal callback, the command of a control tick, and the effect of a whole
    sequence of callback invocations. */
module ControlLaw {
  import opened Wrappers
  import opened Messages
  import opened LightSensor

  /** The node's parameters, read once at start-up. */
  datatype Parameters = Parameters(
    baseLinkFrameId: string,
    xOffset: real,
    yOffset: real,
    wheelRadius: real,
    wheelBase: real)

  /** The parameter defaults the constructor uses when none are given
      (wheel radius and base of a Turtlebot3 burger). */
  const Defaults: Parameters := Parameters("base_link", 0.1, 0.1, 0.033, 0.16)

  /** The differential-drive motion model: constructed from the wheel radius and the
      wheel base; its kinematics map (left, right) readings to a velocity command. */
  datatype MotionModel = MotionModel(
    wheelRadius: real,
    wheelBase: real,
    kinematics: (real, real, real, real) -> Twist)
  {
    /** get_twist: the kinematics evaluated with this model's wheel parameters. */
    function GetTwist(left: real, right: real): Twist
    {
      kinematics(wheelRadius, wheelBase, left, right)
    }
  }

  /** Everything a control computation reads besides the goal, fixed after construction.
      `hypot` is the distance function (std::hypot). */
  datatype Config = Config(
    baseLinkFrameId: string,
    xOffset: real,
    yOffset: real,
    motionModel: MotionModel,
    hypot: (real, real) -> real)

  function Configure(params: Parameters, kinematics: (real, real, real, real) -> Twist,
                     hypot: (real, real) -> real): (cfg: Config)
    ensures cfg.baseLinkFrameId == params.baseLinkFrameId
    ensures cfg.xOffset == params.xOffset && cfg.yOffset == params.yOffset
    ensures cfg.motionModel.wheelRadius == params.wheelRadius
    ensures cfg.motionModel.wheelBase == params.wheelBase
  {
    Config(params.baseLinkFrameId, params.xOffset, params.yOffset,
           MotionModel(params.wheelRadius, params.wheelBase, kinematics), hypot)
  }

  /** The two operating modes. */
  datatype Mode = Idle | Seeking

  function ModeOf(goal: Option<Pose>): Mode
  {
    if goal.Some? then Seeking else Idle
  }

  /** The goal held after a goal message: the message's pose when it is expressed in
      the base frame, no goal otherwise. The previous goal plays no part. */
  function Accept(baseLinkFrameId: string, msg: PoseStamped): (g: Option<Pose>)
    ensures g.Some? <==> msg.header.frameId == baseLinkFrameId
    ensures g.Some? ==> g.value == msg.pose
  {
    if msg.header.frameId == baseLinkFrameId then Some(msg.pose) else None
  }

  /** The command of one control tick: stop without a goal, otherwise the motion model
      applied to the crossed readings (right-mounted sensor into the left input). */
  function Command(cfg: Config, goal: Option<Pose>): (t: Twist)
    ensures ModeOf(goal) == Idle ==> t == ZeroTwist
    ensures ModeOf(goal) == Seeking ==> t == cfg.motionModel.kinematics(
      cfg.motionModel.wheelRadius, cfg.motionModel.wheelBase,
      Emulate(goal, cfg.xOffset, -cfg.yOffset, cfg.hypot),
      Emulate(goal, cfg.xOffset, cfg.yOffset, cfg.hypot))
  {
    if goal.None? then ZeroTwist
    else cfg.motionModel.GetTwist(
      Emulate(goal, cfg.xOffset, -cfg.yOffset, cfg.hypot),
      Emulate(goal, cfg.xOffset, cfg.yOffset, cfg.hypot))
  }

  /** The callbacks the executor can invoke, each taken as one atomic step. */
  datatype Event = GoalReceived(msg: PoseStamped) | ScanReceived(scan: LaserScan) | TimerFired

  /** The goal after one event: only a goal message changes it. */
  function Step(cfg: Config, goal: Option<Pose>, e: Event): (g: Option<Pose>)
    ensures e.GoalReceived? ==> (g.Some? <==> e.msg.header.frameId == cfg.baseLinkFrameId)
    ensures e.GoalReceived? && g.Some? ==> g.value == e.msg.pose
    ensures !e.GoalReceived? ==> g == goal
  {
    match e
    case GoalReceived(msg) => Accept(cfg.baseLinkFrameId, msg)
    case ScanReceived(_) => goal
    case TimerFired => goal
  }

  /** The goal after a sequence of events. */
  function Run(cfg: Config, goal: Option<Pose>, es: seq<Event>): Option<Pose>
    decreases |es|
  {
    if |es| == 0 then goal else Run(cfg, Step(cfg, goal, es[0]), es[1..])
  }

  /** The commands published during a sequence of events, in order. */
  function Emitted(cfg: Config, goal: Option<Pose>, es: seq<Event>): seq<Twist>
    decreases |es|
  {
    if |es| == 0 then []
    else (if es[0].TimerFired? then [Command(cfg, goal)] else [])
         + Emitted(cfg, Step(cfg, goal, es[0]), es[1..])
  }

  function TickCount(es: seq<Event>): nat
    decreases |es|
  {
    if |es| == 0 then 0 else (if es[0].TimerFired? then 1 else 0) + TickCount(es[1..])
  }

  /** The mode transitions: an accepted goal leads to Seeking and a rejected one to
      Idle, from either mode; scans and ticks keep the mode. */
  lemma StepModes(cfg: Config, goal: Option<Pose>, e: Event)
    ensures e.GoalReceived? ==>
      ModeOf(Step(cfg, goal, e)) == (if e.msg.header.frameId == cfg.baseLinkFrameId then Seeking else Idle)
    ensures !e.GoalReceived? ==> Step(cfg, goal, e) == goal
  {
  }

  /** Without goal messages the goal is never changed. */
  lemma {:induction false} RunKeepsGoal(cfg: Config, goal: Option<Pose>, es: seq<Event>)
    requires forall j :: 0 <= j < |es| ==> !es[j].GoalReceived?
    ensures Run(cfg, goal, es) == goal
    decreases |es|
  {
    if |es| > 0 {
      assert !es[0].GoalReceived?;
      RunKeepsGoal(cfg, goal, es[1..]);
    }
  }

  /** Last write wins: the goal after a sequence of events is decided by the last goal
      message alone, whatever the initial goal and the earlier messages were. */
  lemma {:induction false} RunLastGoalWins(cfg: Config, goal: Option<Pose>, es: seq<Event>, i: nat)
    requires i < |es| && es[i].GoalReceived?
    requires forall j :: i < j < |es| ==> !es[j].GoalReceived?
    ensures Run(cfg, goal, es) == Accept(cfg.baseLinkFrameId, es[i].msg)
    decreases |es|
  {
    if i == 0 {
      RunKeepsGoal(cfg, Step(cfg, goal, es[0]), es[1..]);
    } else {
      RunLastGoalWins(cfg, Step(cfg, goal, es[0]), es[1..], i - 1);
    }
  }

  /** Exactly one command is published per control tick, and none otherwise. */
  lemma {:induction false} OneCommandPerTick(cfg: Config, goal: Option<Pose>, es: seq<Event>)
    ensures |Emitted(cfg, goal, es)| == TickCount(es)
    decreases |es|
  {
    if |es| > 0 {
      OneCommandPerTick(cfg, Step(cfg, goal, es[0]), es[1..]);
    }
  }

  /** Once idle, the vehicle stays stopped: while every goal message is in a foreign
      frame, every published command is the zero twist. */
  lemma {:induction false} IdleStaysStopped(cfg: Config, es: seq<Event>)
    requires forall j :: 0 <= j < |es| && es[j].GoalReceived? ==>
               es[j].msg.header.frameId != cfg.baseLinkFrameId
    ensures forall k :: 0 <= k < |Emitted(cfg, None, es)| ==> Emitted(cfg, None, es)[k] == ZeroTwist
    decreases |es|
  {
    if |es| > 0 {
      assert Step(cfg, None, es[0]) == None;
      IdleStaysStopped(cfg, es[1..]);
    }
  }

  /** The goal reflected in the vehicle's x axis (left and right exchanged). */
  function Mirror(p: Pose): Pose
  {
    p.(position := p.position.(y := -p.position.y))
  }

  /** Crossed wiring is symmetric: mirroring the goal exchanges the motion model's
      left and right inputs. */
  lemma MirroredGoalSwapsInputs(cfg: Config, p: Pose)
    requires Euclidean(cfg.hypot)
    ensures Command(cfg, Some(Mirror(p))) ==
      cfg.motionModel.GetTwist(
        Emulate(Some(p), cfg.xOffset, cfg.yOffset, cfg.hypot),
        Emulate(Some(p), cfg.xOffset, -cfg.yOffset, cfg.hypot))
  {
    var dx := p.position.x - cfg.xOffset;
    var dy := p.position.y - cfg.yOffset;
    var ey := p.position.y - -cfg.yOffset;
    assert -p.position.y - -cfg.yOffset == -dy;
    assert -p.position.y - cfg.yOffset == -ey;
    HypotMirror(cfg.hypot, dx, dy);
    HypotMirror(cfg.hypot, dx, ey);
  }

  /** A goal straight ahead of the vehicle (on its x axis) gives equal inputs. */
  lemma GoalAheadBalanced(cfg: Config, p: Pose)
    requires Euclidean(cfg.hypot)
    requires p.position.y == 0.0
    ensures Emulate(Some(p), cfg.xOffset, -cfg.yOffset, cfg.hypot) ==
            Emulate(Some(p), cfg.xOffset, cfg.yOffset, cfg.hypot)
  {
    assert p.position.y - -cfg.yOffset == -(p.position.y - cfg.yOffset);
    HypotMirror(cfg.hypot, p.position.x - cfg.xOffset, p.position.y - cfg.yOffset);
  }

  /** With the default offsets and a goal at (1.1, 0.1): the left-mounted sensor is at
      distance 1 and reads 1, the right-mounted sensor is at distance sqrt(1.04) and
      reads about 0.9806; the motion model receives (0.9806..., 1). */
  lemma DefaultScenario(cfg: Config, p: Pose)
    requires Euclidean(cfg.hypot)
    requires cfg.xOffset == Defaults.xOffset && cfg.yOffset == Defaults.yOffset
    requires p.position.x == 1.1 && p.position.y == 0.1
    ensures var right := Emulate(Some(p), cfg.xOffset, -cfg.yOffset, cfg.hypot);
            var left := Emulate(Some(p), cfg.xOffset, cfg.yOffset, cfg.hypot);
            left == 1.0 && 0.98 < right < 0.981 && right * right * 1.04 == 1.0 &&
            Command(cfg, Some(p)) == cfg.motionModel.GetTwist(right, left)
  {
    var right := Emulate(Some(p), cfg.xOffset, -cfg.yOffset, cfg.hypot);
    EuclideanReading(p, cfg.xOffset, cfg.yOffset, cfg.hypot);
    EuclideanReading(p, cfg.xOffset, -cfg.yOffset, cfg.hypot);
    assert right * right * 1.04 == 1.0;
    EmulateRange(Some(p), cfg.xOffset, -cfg.yOffset, cfg.hypot) by {
      assert NonNegative(cfg.hypot);
    }
    assert 0.98 * 0.98 * 1.04 < 1.0 < 0.981 * 0.981 * 1.04;
    RootLess(0.98, right);
    RootLess(right, 0.981);
  }
}
