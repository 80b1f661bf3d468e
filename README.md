# Braitenberg vehicle controller — a Dafny model

This project models `BraitenbergVehicleController`, a ROS 2 node that drives a
differential-drive robot toward a goal pose. It uses two virtual light sensors, and
their wiring is crossed. The node holds one optional goal pose. A goal message is
accepted only when it is expressed in the configured base frame (`base_link` by
default). Otherwise the goal is cleared, silently. On every timer tick the node
publishes one velocity command:
- with no goal (mode Idle), the zero twist;
- with a goal (mode Seeking), the motion model applied to two sensor readings. The
  reading at `(x_offset, -y_offset)`, the right-mounted sensor, feeds the model's
  left input. The reading at `(x_offset, +y_offset)` feeds its right input.

A sensor reads 0 without a goal. It reads 1 when its distance to the goal is at most
machine epsilon. Otherwise it reads the reciprocal of that distance.

The code does not do what its own comment says. The comment at
braitenberg_vehicle/src/braitenberg_vehicle_controller.cpp:109 says that 1 is
returned so that the sensor output is maximal. But for every distance strictly
between epsilon and 1 the reading 1/distance is larger than 1. So the reading
drops from about 1/epsilon to 1 as the goal comes within epsilon of the sensor. The
model keeps the code's behaviour. `LightSensor.SaturationBelowNearReadings` proves
this about it.

Modules:
- `Wrappers`: `Option`, for the goal.
- `Messages`: the ROS message types, reduced to the fields the node uses. `ZeroTwist` is
  a default-constructed `Twist`.
- `LightSensor`: `Eps` (2^-52, the epsilon of a double), `Reading` and `Emulate`
  (the sensor law), and lemmas about them.
- `ControlLaw`: the parameters and their defaults, the motion model, the goal gate
  `Accept`, the tick's `Command`, and event traces (`Step`, `Run`, `Emitted`) with
  lemmas about whole sequences of callbacks.
- `Controller`: the class `BraitenbergVehicleController`. Its configuration is
  immutable and its `goalPose` field is mutable. It has one method per callback, and
  the file ends with two client scenarios.

Doubles are modelled as `real`. Two collaborators are parameters of the model:
- `std::hypot` is a function `hypot: (real, real) -> real`. Lemmas that need it assume
  `NonNegative(hypot)` or `Euclidean(hypot)` (non-negative, and its square is
  `dx^2 + dy^2`).
- The motion model's kinematics is a function of (wheel radius, wheel base, left, right).
  Its definition is not part of this model.

## Model

| member | source | states |
|---|---|---|
| `ControlLaw.Configure` | braitenberg_vehicle/src/braitenberg_vehicle_controller.cpp:22-36 | the base frame, both sensor offsets, the wheel radius and the wheel base of the configuration are the parameters given (`Defaults` are "base_link", 0.1, 0.1, 0.033, 0.16) |
| `Controller.BraitenbergVehicleController.constructor` | braitenberg_vehicle/src/braitenberg_vehicle_controller.cpp:22-36 | the node is configured from the parameters and starts without a goal |
| `Controller.BraitenbergVehicleController.ScanCallback` | braitenberg_vehicle/src/braitenberg_vehicle_controller.cpp:50-54 | a scan changes nothing: the goal and every other field are unchanged |
| `Controller.BraitenbergVehicleController.GoalPoseCallback` | braitenberg_vehicle/src/braitenberg_vehicle_controller.cpp:56-69 | afterwards a goal is held iff the message's frame is the base frame, and then it is exactly the message's pose, whatever the previous goal; the mode becomes Seeking or Idle accordingly |
| `Controller.BraitenbergVehicleController.TimerCallback` | braitenberg_vehicle/src/braitenberg_vehicle_controller.cpp:71-88 | without a goal the command is the zero twist; with one it is `GetTwist(Emulate(x, -y), Emulate(x, +y))` (crossed wiring); no state changes |
| `ControlLaw.MotionModel.GetTwist` | braitenberg_vehicle/src/braitenberg_vehicle_controller.cpp:31-35 | the stand-in for the opaque `motion_model_.get_twist`; it carries no contract of its own. `ControlLaw.Command`'s Seeking clause and `Controller.AcceptedGoalSeeks` (`kinematics(Defaults.wheelRadius, Defaults.wheelBase, r, 1.0)`) show that the configured wheel radius and wheel base reach the kinematics |
| `ControlLaw.Command` | braitenberg_vehicle/src/braitenberg_vehicle_controller.cpp:74-86 | in mode Idle the command is the zero twist; in mode Seeking it is the kinematics applied to the right-mounted reading (x, -y) as left input and the left-mounted reading (x, +y) as right input; `IdleStaysStopped`, `MirroredGoalSwapsInputs` and `DefaultScenario` state its consequences |
| `ControlLaw.Step` | braitenberg_vehicle/src/braitenberg_vehicle_controller.cpp:50-69 | after a goal message a goal is held iff the frame is the base frame, and then it is the message's pose; a scan or a tick leaves the goal as it was |
| `ControlLaw.Accept` | braitenberg_vehicle/src/braitenberg_vehicle_controller.cpp:61-67 | the goal after a goal message is some pose iff the frame id equals the base frame, and that pose is the message's |
| `ControlLaw.StepModes` | braitenberg_vehicle/src/braitenberg_vehicle_controller.cpp:50-69 | an accepted goal leads to Seeking and a rejected one to Idle from either mode; a scan or a tick leaves the goal as it was |
| `ControlLaw.RunKeepsGoal` | braitenberg_vehicle/src/braitenberg_vehicle_controller.cpp:50-88 | a sequence of scans and ticks never changes the goal |
| `ControlLaw.RunLastGoalWins` | braitenberg_vehicle/src/braitenberg_vehicle_controller.cpp:56-69 | after any sequence of callbacks, the goal is decided by the last goal message alone, whatever came before it |
| `ControlLaw.OneCommandPerTick` | braitenberg_vehicle/src/braitenberg_vehicle_controller.cpp:71-88 | exactly one command is published per tick, and none by the other callbacks |
| `ControlLaw.IdleStaysStopped` | braitenberg_vehicle/src/braitenberg_vehicle_controller.cpp:64-86 | starting without a goal, while every goal message is in a foreign frame, every published command is the zero twist |
| `ControlLaw.MirroredGoalSwapsInputs` | braitenberg_vehicle/src/braitenberg_vehicle_controller.cpp:74-83 | reflecting the goal in the vehicle's x axis exchanges the motion model's left and right inputs |
| `ControlLaw.GoalAheadBalanced` | braitenberg_vehicle/src/braitenberg_vehicle_controller.cpp:74-83 | a goal on the vehicle's x axis gives equal left and right inputs |
| `ControlLaw.DefaultScenario` | braitenberg_vehicle/src/braitenberg_vehicle_controller.cpp:74-115 | with offsets 0.1/0.1 and a goal at (1.1, 0.1) the left-mounted sensor reads 1, the right-mounted one reads r with r^2 * 1.04 = 1 (0.98 < r < 0.981), and the command is `GetTwist(r, 1)` |
| `LightSensor.Reading` | braitenberg_vehicle/src/braitenberg_vehicle_controller.cpp:105-115 | within epsilon of zero the reading is 1; beyond it the reading times the distance is 1; for a non-negative distance the reading lies in (0, 1/Eps] |
| `LightSensor.Emulate` | braitenberg_vehicle/src/braitenberg_vehicle_controller.cpp:91-120 | `emulate_light_sensor`: the reading is 0 iff no goal is held; with a goal at a non-negative distance it lies in (0, 1/Eps]; its case split and inverse law are stated by `Reading`, `EmulateRange`, `EuclideanReading` and `GoalAtSensor` |
| `Controller.BraitenbergVehicleController.EmulateLightSensor` | braitenberg_vehicle/src/braitenberg_vehicle_controller.cpp:91-120 | the `const` member: it only reads the object, gives the reading of `Emulate` for the held goal, and that reading is 0 iff no goal is held |
| `LightSensor.EmulateRange` | braitenberg_vehicle/src/braitenberg_vehicle_controller.cpp:91-120 | for a non-negative distance function the reading is never negative, is positive exactly when a goal is held, is 0 without a goal, and is at most 1/Eps |
| `LightSensor.ReadingAntitone` | braitenberg_vehicle/src/braitenberg_vehicle_controller.cpp:111-115 | beyond epsilon a farther goal never gives a larger reading |
| `LightSensor.SaturationBelowNearReadings` | braitenberg_vehicle/src/braitenberg_vehicle_controller.cpp:108-113 | the saturated reading 1 is smaller than the reading at any distance strictly between epsilon and 1, so the reading is not monotone across the epsilon threshold |
| `LightSensor.GoalAtSensor` | braitenberg_vehicle/src/braitenberg_vehicle_controller.cpp:105-110 | a goal exactly at the sensor's mounting point reads 1 |
| `LightSensor.EuclideanReading` | braitenberg_vehicle/src/braitenberg_vehicle_controller.cpp:104-115 | for the Euclidean distance: squared distance at most Eps^2 reads 1; beyond, the reading is positive and its square is the inverse of the squared distance |
| `LightSensor.HypotMirror` | braitenberg_vehicle/src/braitenberg_vehicle_controller.cpp:105-106 | the Euclidean distance to mirrored offsets (x, -y) and (x, y) is the same |
| `Controller.ForeignFrameStops` | braitenberg_vehicle/src/braitenberg_vehicle_controller.cpp:56-88 | a goal message in frame "map" clears the goal and the next tick publishes the zero twist |
| `Controller.AcceptedGoalSeeks` | braitenberg_vehicle/src/braitenberg_vehicle_controller.cpp:50-88 | a default-configured node that accepts the goal (1.1, 0.1) keeps it across a scan and a tick, and then publishes the kinematics applied to (r, 1) with 0.98 < r < 0.981 |

## Left out

- ROS plumbing: the node base, publisher and subscription creation, and topic names (lines 22-46). Publishing is the value `TimerCallback` returns.
- Parameter loading through `get_parameter`. The constructor takes a `Parameters` record, and `Defaults` records the default values.
- The mutex: each callback is one atomic method. Torn reads of the goal cannot occur in this model. Concurrency itself is not modelled.
- Timer registration: the constructor (braitenberg_vehicle_controller.cpp:37-45) registers no timer, and nothing in braitenberg_vehicle_controller.cpp schedules `timer_callback`. The `TimerFired` events assume a timer that calls it.
- The executor and the timer period: `Event` sequences stand for any interleaving of atomic callbacks.
- The motion model's kinematics, wheel-radius and wheel-base use: its definition is not part of this model, so it is an injected function.
- `std::hypot`: an injected function. Properties that depend on it assume it is non-negative or Euclidean.
- IEEE-754 rounding of `hypot`, `1 / distance` and the epsilon comparison: reals are exact, and no rounding claims are made.
- Non-finite doubles are outside the model, because reals have no NaN or infinity. For doubles, `EmulateRange`'s "positive exactly when a goal is held" holds only while `hypot`'s result is finite. An infinite or overflowing distance (for example, coordinates near 1e308) reads 0 with a goal held. A NaN difference with no infinite one reads NaN.
- Message fields the node never reads: the header time stamp, and every scan field. The node reads no field of the scan message (lines 50-54); `LaserScan` keeps the message's fields only so that `ScanCallback` has a parameter.
