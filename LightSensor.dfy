/** The virtual light sensor: the goal is a light source and a sensor mounted at an
    offset in the vehicle's body frame reads a stimulus inversely proportional to
    its distance from the goal. */
module LightSensor {
  import opened Wrappers
  import opened Messages

  /** Machine epsilon of an IEEE-754 double, 2^-52, taken as an exact real. */
  const Eps: real := 1.0 / 4503599627370496.0

  /** The largest reading the sensor can produce for a non-negative distance. */
  const MaxReading: real := 1.0 / Eps

  function Abs(x: real): real
  {
    if x < 0.0 then -x else x
  }

  /** The distance function (std::hypot in the source) never returns a negative value. */
  ghost predicate NonNegative(hypot: (real, real) -> real)
  {
    forall dx: real, dy: real :: hypot(dx, dy) >= 0.0
  }

  /** The distance function is the Euclidean norm: non-negative and squaring to dx^2 + dy^2. */
  ghost predicate Euclidean(hypot: (real, real) -> real)
  {
    forall dx: real, dy: real :: hypot(dx, dy) >= 0.0 && hypot(dx, dy) * hypot(dx, dy) == dx * dx + dy * dy
  }

  /** The reading for a given distance: saturates at 1 when the distance is within
      epsilon of zero (avoiding the division by zero), otherwise the reciprocal. */
  function Reading(distance: real): (r: real)
    ensures Abs(distance) <= Eps ==> r == 1.0
    ensures Abs(distance) > Eps ==> r * distance == 1.0
    ensures distance >= 0.0 ==> 0.0 < r <= MaxReading
  {
    if Abs(distance) <= Eps then 1.0 else 1.0 / distance
  }

  /** emulate_light_sensor: the reading of a sensor mounted at (xOffset, yOffset) for
      the held goal; 0 when no goal is held. It depends on nothing but its arguments. */
  function Emulate(goal: Option<Pose>, xOffset: real, yOffset: real, hypot: (real, real) -> real): (r: real)
    ensures r == 0.0 <==> goal.None?
    ensures (goal.Some? && hypot(goal.value.position.x - xOffset, goal.value.position.y - yOffset) >= 0.0) ==>
              0.0 < r <= MaxReading
  {
    match goal
    case None => 0.0
    case Some(p) => Reading(hypot(p.position.x - xOffset, p.position.y - yOffset))
  }

  /** With a non-negative distance function the reading is never negative, it is
      positive exactly when a goal is held, and it never exceeds MaxReading. */
  lemma EmulateRange(goal: Option<Pose>, xOffset: real, yOffset: real, hypot: (real, real) -> real)
    requires NonNegative(hypot)
    ensures 0.0 <= Emulate(goal, xOffset, yOffset, hypot) <= MaxReading
    ensures Emulate(goal, xOffset, yOffset, hypot) > 0.0 <==> goal.Some?
    ensures goal.None? ==> Emulate(goal, xOffset, yOffset, hypot) == 0.0
  {
  }

  /** Outside the saturation radius the reading decreases as the distance grows. */
  lemma ReadingAntitone(d1: real, d2: real)
    requires Eps < d1 <= d2
    ensures 0.0 < Reading(d2) <= Reading(d1)
  {
    var r1, r2 := Reading(d1), Reading(d2);
    assert r1 * d1 == 1.0 && r2 * d2 == 1.0;
    MulMono(r2, d1, d2);
    MulMono(r1, r2 * d1, r2 * d2);
    calc {
      r2;
    ==
      r2 * (r1 * d1);
    ==
      r1 * (r2 * d1);
    <=
      r1 * (r2 * d2);
    ==
      r1;
    }
  }

  /** The saturated reading 1 is smaller than the reading at any distance between
      epsilon and 1, so the reading is not monotone across the saturation radius. */
  lemma SaturationBelowNearReadings(d: real)
    requires Eps < d < 1.0
    ensures Reading(0.0) == 1.0 < Reading(d)
  {
  }

  lemma MulMono(a: real, b: real, c: real)
    requires 0.0 <= a && b <= c
    ensures a * b <= a * c
  {
    assert a * c - a * b == a * (c - b);
  }

  lemma RootLess(a: real, b: real)
    requires 0.0 <= a && 0.0 <= b && a * a < b * b
    ensures a < b
  {
  }

  lemma SquareRootUnique(a: real, b: real)
    requires a >= 0.0 && b >= 0.0 && a * a == b * b
    ensures a == b
  {
    assert (a - b) * (a + b) == 0.0;
    if a + b != 0.0 {
      assert a - b == 0.0;
    }
  }

  /** The Euclidean distance is the same for mirrored offsets. */
  lemma HypotMirror(hypot: (real, real) -> real, dx: real, dy: real)
    requires Euclidean(hypot)
    ensures hypot(dx, -dy) == hypot(dx, dy)
  {
    assert (-dy) * (-dy) == dy * dy;
    SquareRootUnique(hypot(dx, -dy), hypot(dx, dy));
  }

  /** A goal exactly at the sensor's mounting point gives the saturated reading 1. */
  lemma GoalAtSensor(p: Pose, hypot: (real, real) -> real)
    requires Euclidean(hypot)
    ensures Emulate(Some(p), p.position.x, p.position.y, hypot) == 1.0
  {
  }

  /** For a Euclidean distance the saturation test is a test on the squared distance,
      and beyond it the squared reading is the inverse square of the distance. */
  lemma EuclideanReading(p: Pose, xOffset: real, yOffset: real, hypot: (real, real) -> real)
    requires Euclidean(hypot)
    ensures var dx, dy := p.position.x - xOffset, p.position.y - yOffset;
            var r := Emulate(Some(p), xOffset, yOffset, hypot);
            (dx * dx + dy * dy <= Eps * Eps ==> r == 1.0) &&
            (dx * dx + dy * dy > Eps * Eps ==> r > 0.0 && r * r * (dx * dx + dy * dy) == 1.0)
  {
  }
}
