/**
 * What one simulation step computes, stated as functions over the list of
 * boids. The step has two phases.
 *
 * Phase 1 visits the boids in list order. For the visited boid it
 *  - subtracts from its velocity one nudge per attractor in range,
 *  - classifies every other boid by squared distance into separation,
 *    cohesion and alignment sums, and
 *  - adds the normalised separation sum to its acceleration and subtracts
 *    the normalised cohesion and alignment sums.
 * The visit writes into the list straight away, so a later boid's
 * alignment sum sees the nudged velocities of the boids visited before it.
 *
 * Phase 2 clamps each acceleration, adds it to the velocity, clamps the
 * velocity, adds that to the position and clears the acceleration.
 */
module Steering {
  import opened Numerics
  import opened Types

  function Add(u: Vec, v: Vec): Vec { Vec(u.x + v.x, u.y + v.y) }

  /** The offset from q to p: what the source calls the "spare" vector. */
  function Offset(px: real, py: real, qx: real, qy: real): Vec { Vec(px - qx, py - qy) }

  // ---------------------------------------------------------------------
  // Attractors

  /** An attractor acts on a boid strictly inside its radius. */
  predicate InRange(b: BoidData, at: Attractor)
  {
    SquaredLength(Offset(b.x, b.y, at.x, at.y)) < at.radius * at.radius
  }

  /**
   * The velocity change one attractor causes: nothing out of range; in
   * range, the offset from the attractor scaled to length `force`, or
   * nothing when the boid sits exactly on the attractor.
   */
  function Nudge(b: BoidData, at: Attractor): (n: Vec)
    ensures !InRange(b, at) ==> n == Zero
    ensures Offset(b.x, b.y, at.x, at.y) == Zero ==> n == Zero
    ensures InRange(b, at) && Offset(b.x, b.y, at.x, at.y) != Zero ==>
      Hypot(n.x, n.y) == Abs(at.force)
    ensures InRange(b, at) && Offset(b.x, b.y, at.x, at.y) != Zero && at.force > 0.0 ==>
      SameDirection(n, Offset(b.x, b.y, at.x, at.y))
    ensures InRange(b, at) && Offset(b.x, b.y, at.x, at.y) != Zero && at.force < 0.0 ==>
      OppositeDirection(n, Offset(b.x, b.y, at.x, at.y))
  {
    if InRange(b, at) then Normalized(Offset(b.x, b.y, at.x, at.y), at.force) else Zero
  }

  /**
   * One attractor acting on a boid: the nudge is subtracted from the
   * velocity directly, so it bypasses the acceleration clamp; position and
   * acceleration are untouched.
   */
  function Pull(b: BoidData, at: Attractor): (r: BoidData)
    ensures r.x == b.x && r.y == b.y && r.ax == b.ax && r.ay == b.ay
    ensures r.vx == b.vx - Nudge(b, at).x && r.vy == b.vy - Nudge(b, at).y
    ensures !InRange(b, at) ==> r == b
  {
    var n := Nudge(b, at);
    b.(vx := b.vx - n.x, vy := b.vy - n.y)
  }

  /** The first n attractors acting on a boid, in list order. */
  function PullAll(b: BoidData, ats: seq<Attractor>, n: nat): (r: BoidData)
    requires n <= |ats|
    ensures r.x == b.x && r.y == b.y && r.ax == b.ax && r.ay == b.ay
  {
    if n == 0 then b else Pull(PullAll(b, ats, n - 1), ats[n - 1])
  }

  /** A boid that no attractor reaches keeps its velocity. */
  lemma {:induction false} PullAllOutOfRange(b: BoidData, ats: seq<Attractor>, n: nat)
    requires n <= |ats|
    requires forall j :: 0 <= j < n ==> !InRange(b, ats[j])
    ensures PullAll(b, ats, n) == b
  {
    if n > 0 {
      PullAllOutOfRange(b, ats, n - 1);
    }
  }

  /** Attractors act by position only, so two boids at one place get the same nudges. */
  lemma NudgeByPosition(b: BoidData, c: BoidData, at: Attractor)
    requires b.x == c.x && b.y == c.y
    ensures Nudge(b, at) == Nudge(c, at)
  {
  }

  // ---------------------------------------------------------------------
  // Neighbours

  /** The separation, cohesion and alignment sums of one boid. */
  datatype Sums = Sums(sep: Vec, coh: Vec, ali: Vec)

  const NoSums := Sums(Zero, Zero, Zero)

  /**
   * Classifying one other boid for the boid at p, with strict thresholds:
   * too close adds the offset to the separation sum only; otherwise the
   * offset joins the cohesion sum within the cohesion distance and the
   * other boid's velocity joins the alignment sum within the alignment
   * distance.
   */
  function Classify(cfg: Config, p: Vec, other: BoidData, s: Sums): Sums
  {
    var spare := Offset(p.x, p.y, other.x, other.y);
    var d2 := SquaredLength(spare);
    if d2 < cfg.separationDistance then
      s.(sep := Add(s.sep, spare))
    else
      var s1 := if d2 < cfg.cohesionDistance then s.(coh := Add(s.coh, spare)) else s;
      if d2 < cfg.alignmentDistance then s1.(ali := Add(s1.ali, other.Velocity())) else s1
  }

  /** The sums of the boid at index i (at position p) over the boids before index n. */
  function Neighbours(cfg: Config, bs: seq<BoidData>, i: nat, p: Vec, n: nat): Sums
    requires n <= |bs|
  {
    if n == 0 then
      NoSums
    else
      var s := Neighbours(cfg, bs, i, p, n - 1);
      if n - 1 == i then s else Classify(cfg, p, bs[n - 1], s)
  }

  predicate Separates(cfg: Config, p: Vec, o: BoidData)
  {
    SquaredLength(Offset(p.x, p.y, o.x, o.y)) < cfg.separationDistance
  }

  predicate Coheres(cfg: Config, p: Vec, o: BoidData)
  {
    !Separates(cfg, p, o) && SquaredLength(Offset(p.x, p.y, o.x, o.y)) < cfg.cohesionDistance
  }

  predicate Aligns(cfg: Config, p: Vec, o: BoidData)
  {
    !Separates(cfg, p, o) && SquaredLength(Offset(p.x, p.y, o.x, o.y)) < cfg.alignmentDistance
  }

  /** Reference sum: offsets of the other boids closer than the separation distance. */
  function SeparationSum(cfg: Config, bs: seq<BoidData>, i: nat, p: Vec, n: nat): Vec
    requires n <= |bs|
  {
    if n == 0 then Zero
    else
      var s := SeparationSum(cfg, bs, i, p, n - 1);
      var o := bs[n - 1];
      if n - 1 != i && Separates(cfg, p, o) then Add(s, Offset(p.x, p.y, o.x, o.y)) else s
  }

  /** Reference sum: offsets of the other boids not separating but within the cohesion distance. */
  function CohesionSum(cfg: Config, bs: seq<BoidData>, i: nat, p: Vec, n: nat): Vec
    requires n <= |bs|
  {
    if n == 0 then Zero
    else
      var s := CohesionSum(cfg, bs, i, p, n - 1);
      var o := bs[n - 1];
      if n - 1 != i && Coheres(cfg, p, o) then Add(s, Offset(p.x, p.y, o.x, o.y)) else s
  }

  /** Reference sum: velocities of the other boids not separating but within the alignment distance. */
  function AlignmentSum(cfg: Config, bs: seq<BoidData>, i: nat, p: Vec, n: nat): Vec
    requires n <= |bs|
  {
    if n == 0 then Zero
    else
      var s := AlignmentSum(cfg, bs, i, p, n - 1);
      var o := bs[n - 1];
      if n - 1 != i && Aligns(cfg, p, o) then Add(s, o.Velocity()) else s
  }

  /**
   * The one-pass classification computes exactly the three filtered sums:
   * a boid closer than the separation distance counts for separation only,
   * any other boid counts for cohesion and for alignment independently,
   * and the boid itself never counts.
   */
  lemma {:induction false} NeighboursSplit(cfg: Config, bs: seq<BoidData>, i: nat, p: Vec, n: nat)
    requires n <= |bs|
    ensures Neighbours(cfg, bs, i, p, n)
         == Sums(SeparationSum(cfg, bs, i, p, n), CohesionSum(cfg, bs, i, p, n), AlignmentSum(cfg, bs, i, p, n))
  {
    if n > 0 {
      NeighboursSplit(cfg, bs, i, p, n - 1);
    }
  }

  /** What the boid at index i itself holds never enters its own sums. */
  lemma {:induction false} NeighboursIgnoreSelf(cfg: Config, bs: seq<BoidData>, i: nat, b: BoidData, p: Vec, n: nat)
    requires n <= |bs| && i < |bs|
    ensures Neighbours(cfg, bs[i := b], i, p, n) == Neighbours(cfg, bs, i, p, n)
  {
    if n > 0 {
      NeighboursIgnoreSelf(cfg, bs, i, b, p, n - 1);
    }
  }

  /**
   * The thresholds are strict: a neighbour at squared distance exactly the
   * separation distance does not separate, and falls through to cohesion
   * and alignment.
   */
  lemma SeparationBoundary(cfg: Config, p: Vec, o: BoidData, s: Sums)
    requires SquaredLength(Offset(p.x, p.y, o.x, o.y)) == cfg.separationDistance
    requires cfg.separationDistance < cfg.cohesionDistance
    requires cfg.separationDistance < cfg.alignmentDistance
    ensures Classify(cfg, p, o, s)
         == Sums(s.sep, Add(s.coh, Offset(p.x, p.y, o.x, o.y)), Add(s.ali, o.Velocity()))
  {
  }

  // ---------------------------------------------------------------------
  // Force application

  /**
   * Adding the steering forces to the acceleration: the separation sum
   * normalised to the separation force is added, the cohesion and the
   * alignment sums normalised to their forces are subtracted.
   */
  function Steer(cfg: Config, b: BoidData, s: Sums): (r: BoidData)
    ensures r.x == b.x && r.y == b.y && r.vx == b.vx && r.vy == b.vy
  {
    var sep := Normalized(s.sep, cfg.separationForce);
    var coh := Normalized(s.coh, cfg.cohesionForce);
    var ali := Normalized(s.ali, cfg.alignmentForce);
    b.(ax := b.ax + sep.x - coh.x - ali.x, ay := b.ay + sep.y - coh.y - ali.y)
  }

  /** Empty sums contribute nothing. */
  lemma SteerNoSums(cfg: Config, b: BoidData)
    ensures Steer(cfg, b, NoSums) == b
  {
    hide Normalized, Hypot;
    assert Normalized(Zero, cfg.separationForce) == Zero;
    assert Normalized(Zero, cfg.cohesionForce) == Zero;
    assert Normalized(Zero, cfg.alignmentForce) == Zero;
  }

  /**
   * With only separating neighbours, the acceleration changes by a vector
   * of approximate length |separationForce|, pointing along the separation
   * sum (away from the crowd) for a positive force.
   */
  lemma SteerSeparationOnly(cfg: Config, b: BoidData, sep: Vec)
    requires sep != Zero
    ensures var r := Steer(cfg, b, Sums(sep, Zero, Zero));
      && Hypot(r.ax - b.ax, r.ay - b.ay) == Abs(cfg.separationForce)
      && (cfg.separationForce > 0.0 ==> SameDirection(Vec(r.ax - b.ax, r.ay - b.ay), sep))
  {
    hide Normalized, Hypot, SameDirection, OppositeDirection;
    var r := Steer(cfg, b, Sums(sep, Zero, Zero));
    var n := Normalized(sep, cfg.separationForce);
    assert Normalized(Zero, cfg.cohesionForce) == Zero;
    assert Normalized(Zero, cfg.alignmentForce) == Zero;
    assert r.ax - b.ax == n.x && r.ay - b.ay == n.y;
    assert Vec(r.ax - b.ax, r.ay - b.ay) == n;
  }

  /**
   * With only cohering neighbours, the acceleration changes by a vector of
   * approximate length |cohesionForce|; for a positive force it points
   * against the cohesion sum of offsets (towards the neighbours).
   */
  lemma SteerCohesionOnly(cfg: Config, b: BoidData, coh: Vec)
    requires coh != Zero
    ensures var r := Steer(cfg, b, Sums(Zero, coh, Zero));
      && Hypot(r.ax - b.ax, r.ay - b.ay) == Abs(cfg.cohesionForce)
      && (cfg.cohesionForce > 0.0 ==> OppositeDirection(Vec(r.ax - b.ax, r.ay - b.ay), coh))
  {
    hide Normalized, Hypot, SameDirection, OppositeDirection;
    var r := Steer(cfg, b, Sums(Zero, coh, Zero));
    var n := Normalized(coh, cfg.cohesionForce);
    assert Normalized(Zero, cfg.separationForce) == Zero;
    assert Normalized(Zero, cfg.alignmentForce) == Zero;
    assert r.ax - b.ax == -n.x && r.ay - b.ay == -n.y;
    HypotNegated(n.x, n.y);
    if cfg.cohesionForce > 0.0 {
      NegatedOpposite(n, coh);
    }
  }

  /**
   * With only aligning neighbours, the acceleration changes by a vector of
   * approximate length |alignmentForce|; for a positive force it points
   * against the alignment sum of velocities.
   */
  lemma SteerAlignmentOnly(cfg: Config, b: BoidData, ali: Vec)
    requires ali != Zero
    ensures var r := Steer(cfg, b, Sums(Zero, Zero, ali));
      && Hypot(r.ax - b.ax, r.ay - b.ay) == Abs(cfg.alignmentForce)
      && (cfg.alignmentForce > 0.0 ==> OppositeDirection(Vec(r.ax - b.ax, r.ay - b.ay), ali))
  {
    hide Normalized, Hypot, SameDirection, OppositeDirection;
    var r := Steer(cfg, b, Sums(Zero, Zero, ali));
    var n := Normalized(ali, cfg.alignmentForce);
    assert Normalized(Zero, cfg.separationForce) == Zero;
    assert Normalized(Zero, cfg.cohesionForce) == Zero;
    assert r.ax - b.ax == -n.x && r.ay - b.ay == -n.y;
    HypotNegated(n.x, n.y);
    if cfg.alignmentForce > 0.0 {
      NegatedOpposite(n, ali);
    }
  }

  // ---------------------------------------------------------------------
  // Phase 1

  /**
   * The visit of boid i: the attractors act on it and the nudged boid is
   * written back; then its sums are taken over that list and added to its
   * acceleration.
   */
  function Visit(cfg: Config, ats: seq<Attractor>, bs: seq<BoidData>, i: nat): seq<BoidData>
    requires i < |bs|
  {
    var nudged := PullAll(bs[i], ats, |ats|);
    var sums := Neighbours(cfg, bs[i := nudged], i, nudged.Position(), |bs|);
    bs[i := Steer(cfg, nudged, sums)]
  }

  /**
   * A visit changes only the visited boid, and of that boid only the
   * velocity (by the attractor nudges) and the acceleration.
   */
  lemma VisitChanges(cfg: Config, ats: seq<Attractor>, bs: seq<BoidData>, i: nat)
    requires i < |bs|
    ensures var r := Visit(cfg, ats, bs, i);
      && |r| == |bs|
      && (forall j :: 0 <= j < |bs| && j != i ==> r[j] == bs[j])
      && r[i].x == bs[i].x && r[i].y == bs[i].y
      && r[i].Velocity() == PullAll(bs[i], ats, |ats|).Velocity()
  {
    hide Neighbours, Classify, Steer, Normalized, Hypot;
  }

  /** Phase 1 after visiting the first k boids. */
  function Phase1(cfg: Config, ats: seq<Attractor>, bs: seq<BoidData>, k: nat): (r: seq<BoidData>)
    requires k <= |bs|
    ensures |r| == |bs|
  {
    if k == 0 then
      bs
    else
      var p := Phase1(cfg, ats, bs, k - 1);
      VisitChanges(cfg, ats, p, k - 1);
      Visit(cfg, ats, p, k - 1)
  }

  /**
   * Positions never change in phase 1; every visited boid carries its
   * nudged velocity and the unvisited ones are as they were. This is what
   * the visit of boid k reads when it sums the alignment velocities: the
   * nudged velocities before index k and the original ones after it.
   */
  lemma {:induction false} Phase1State(cfg: Config, ats: seq<Attractor>, bs: seq<BoidData>, k: nat)
    requires k <= |bs|
    ensures var r := Phase1(cfg, ats, bs, k);
      && (forall j :: 0 <= j < |bs| ==> r[j].x == bs[j].x && r[j].y == bs[j].y)
      && (forall j :: 0 <= j < k ==> r[j].Velocity() == PullAll(bs[j], ats, |ats|).Velocity())
      && (forall j :: k <= j < |bs| ==> r[j] == bs[j])
  {
    hide Visit, Neighbours, Classify, Steer, Normalized, Hypot;
    if k > 0 {
      Phase1State(cfg, ats, bs, k - 1);
      VisitChanges(cfg, ats, Phase1(cfg, ats, bs, k - 1), k - 1);
    }
  }

  // ---------------------------------------------------------------------
  // Phase 2

  /**
   * A clamp that is switched off by a zero limit: otherwise a vector whose
   * squared length exceeds the limit is brought to approximate length
   * |root|, in its own direction for a positive root.
   */
  function Limited(v: Vec, limit: real, root: real): (r: Vec)
    requires limit >= 0.0
    ensures limit == 0.0 || SquaredLength(v) <= limit ==> r == v
    ensures limit != 0.0 && SquaredLength(v) > limit ==> Hypot(r.x, r.y) == Abs(root)
    ensures limit != 0.0 && SquaredLength(v) > limit && root > 0.0 ==> SameDirection(r, v)
  {
    if limit != 0.0 then Clamp(v, limit, root) else v
  }

  /** Phase 2 for one boid. */
  function Integrate(cfg: Config, b: BoidData): (r: BoidData)
    requires cfg.Consistent()
    ensures r.ax == 0.0 && r.ay == 0.0
    ensures r.x == b.x + r.vx && r.y == b.y + r.vy
    ensures var a := Limited(b.Acceleration(), cfg.accelerationLimit, cfg.accelerationLimitRoot);
      r.Velocity() == Limited(Vec(b.vx + a.x, b.vy + a.y), cfg.speedLimit, cfg.speedLimitRoot)
    ensures cfg.speedLimit != 0.0 ==>
      SquaredLength(r.Velocity()) <= cfg.speedLimit || Hypot(r.vx, r.vy) == Abs(cfg.speedLimitRoot)
  {
    ConsistentLimits(cfg);
    var a := Limited(b.Acceleration(), cfg.accelerationLimit, cfg.accelerationLimitRoot);
    var v := Limited(Vec(b.vx + a.x, b.vy + a.y), cfg.speedLimit, cfg.speedLimitRoot);
    BoidData(b.x + v.x, b.y + v.y, v.x, v.y, 0.0, 0.0)
  }

  // ---------------------------------------------------------------------
  // The whole step

  function TickSpec(cfg: Config, ats: seq<Attractor>, bs: seq<BoidData>): (r: seq<BoidData>)
    requires cfg.Consistent()
    ensures |r| == |bs|
  {
    var p := Phase1(cfg, ats, bs, |bs|);
    seq(|p|, i requires 0 <= i < |p| => Integrate(cfg, p[i]))
  }

  /**
   * After a step the list has as many boids as before, boid i still
   * descends from boid i, every acceleration is zero and every position
   * has moved by exactly the new velocity; with a speed limit, each new
   * velocity is within it or brought to approximate length |speedLimitRoot|.
   */
  lemma TickPostState(cfg: Config, ats: seq<Attractor>, bs: seq<BoidData>)
    requires cfg.Consistent()
    ensures var r := TickSpec(cfg, ats, bs);
      && |r| == |bs|
      && (forall i :: 0 <= i < |r| ==>
            && r[i].ax == 0.0 && r[i].ay == 0.0
            && r[i].x == bs[i].x + r[i].vx && r[i].y == bs[i].y + r[i].vy)
      && (cfg.speedLimit != 0.0 ==> forall i :: 0 <= i < |r| ==>
            SquaredLength(r[i].Velocity()) <= cfg.speedLimit || Hypot(r[i].vx, r[i].vy) == Abs(cfg.speedLimitRoot))
  {
    hide Visit, Neighbours, Classify, Steer, Normalized;
    Phase1State(cfg, ats, bs, |bs|);
  }

  lemma SquaredLengthZero()
    ensures SquaredLength(Zero) == 0.0
  {
  }

  /** Phase 2 for a boid without acceleration: it moves by its limited velocity. */
  lemma IntegrateAtRest(cfg: Config, b: BoidData)
    requires cfg.Consistent()
    requires b.ax == 0.0 && b.ay == 0.0
    ensures var v := Limited(b.Velocity(), cfg.speedLimit, cfg.speedLimitRoot);
      Integrate(cfg, b) == BoidData(b.x + v.x, b.y + v.y, v.x, v.y, 0.0, 0.0)
  {
    hide SquaredLength, Hypot, Normalized, Clamp, Limited, Integrate, Config.Consistent;
    ConsistentLimits(cfg);
    SquaredLengthZero();
    var a := Limited(b.Acceleration(), cfg.accelerationLimit, cfg.accelerationLimitRoot);
    assert a == Zero;
    assert Vec(b.vx + a.x, b.vy + a.y) == b.Velocity();
  }

  /**
   * A lone boid without acceleration and without attractors is steered by
   * nothing: it ends the step at its position plus its (speed-limited)
   * velocity.
   */
  lemma LoneBoid(cfg: Config, b: BoidData)
    requires cfg.Consistent()
    requires b.ax == 0.0 && b.ay == 0.0
    ensures var v := Limited(b.Velocity(), cfg.speedLimit, cfg.speedLimitRoot);
      TickSpec(cfg, [], [b]) == [BoidData(b.x + v.x, b.y + v.y, v.x, v.y, 0.0, 0.0)]
  {
    hide SquaredLength, Hypot, Normalized, Clamp, Limited, Integrate, Config.Consistent;
    var bs := [b];
    assert Neighbours(cfg, bs, 0, b.Position(), 1) == NoSums;
    assert bs[0 := b] == bs;
    SteerNoSums(cfg, b);
    assert Visit(cfg, [], bs, 0) == bs;
    assert Phase1(cfg, [], bs, 1) == bs;
    IntegrateAtRest(cfg, b);
  }
}
