/**
 * The records of the flocking simulator and its fixed configuration.
 *
 * A boid is the six-number record [x, y, vx, vy, ax, ay]: position,
 * velocity and acceleration. An attractor is [x, y, radius, force]; a
 * negative force makes it a repeller. The configuration keeps every
 * distance and limit squared, next to the unsquared roots the clamps need.
 */
module Types {
  import opened Numerics

  datatype BoidData = BoidData(x: real, y: real, vx: real, vy: real, ax: real, ay: real)
  {
    function Position(): Vec { Vec(x, y) }
    function Velocity(): Vec { Vec(vx, vy) }
    function Acceleration(): Vec { Vec(ax, ay) }
  }

  datatype Attractor = Attractor(x: real, y: real, radius: real, force: real)

  datatype Config = Config(
    speedLimit: real,            // squared
    speedLimitRoot: real,
    accelerationLimit: real,     // squared
    accelerationLimitRoot: real,
    separationDistance: real,    // squared
    alignmentDistance: real,     // squared
    cohesionDistance: real,      // squared
    separationForce: real,
    cohesionForce: real,
    alignmentForce: real)
  {
    /** Both limits are the squares of their roots, hence never negative. */
    predicate Consistent()
    {
      && speedLimit == speedLimitRoot * speedLimitRoot
      && accelerationLimit == accelerationLimitRoot * accelerationLimitRoot
    }
  }

  lemma SquareNonNegative(r: real)
    ensures r * r >= 0.0
  {
    if r < 0.0 {
      assert r * r == (-r) * (-r);
    }
  }

  /** The limits of a consistent configuration are non-negative. */
  lemma ConsistentLimits(cfg: Config)
    requires cfg.Consistent()
    ensures cfg.speedLimit >= 0.0 && cfg.accelerationLimit >= 0.0
  {
    SquareNonNegative(cfg.speedLimitRoot);
    SquareNonNegative(cfg.accelerationLimitRoot);
  }

  /** A random draw, a number in [0, 1). */
  predicate IsDraw(d: real) { 0.0 <= d < 1.0 }

  /**
   * The initial boids: boid i takes the draws 4i .. 4i+3, in the order the
   * simulator asks for them (x, y, vx, vy), and starts with no acceleration.
   */
  function InitialBoids(count: nat, draws: seq<real>): (r: seq<BoidData>)
    requires |draws| >= 4 * count
    requires forall j :: 0 <= j < |draws| ==> IsDraw(draws[j])
    ensures |r| == count
    ensures forall i :: 0 <= i < count ==>
      r[i] == BoidData(draws[4 * i] * 400.0 - 200.0, draws[4 * i + 1] * 400.0 - 200.0,
                       (draws[4 * i + 2] - 0.5) * 1.0, (draws[4 * i + 3] - 0.5) * 1.0, 0.0, 0.0)
    ensures forall i :: 0 <= i < count ==>
      && -200.0 <= r[i].x < 200.0 && -200.0 <= r[i].y < 200.0
      && -0.5 <= r[i].vx < 0.5 && -0.5 <= r[i].vy < 0.5
      && r[i].ax == 0.0 && r[i].ay == 0.0
  {
    if count == 0 then
      []
    else
      var k := count - 1;
      InitialBoids(k, draws) +
      [BoidData(draws[4 * k] * 400.0 - 200.0, draws[4 * k + 1] * 400.0 - 200.0,
                (draws[4 * k + 2] - 0.5) * 1.0, (draws[4 * k + 3] - 0.5) * 1.0, 0.0, 0.0)]
  }
}
