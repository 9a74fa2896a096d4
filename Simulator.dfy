/**
 * The flocking simulator object: a list of boids it updates in place, an
 * attractor list it holds by reference (so that whoever passed the list in
 * can keep moving the attractors), the configuration fixed at
 * construction, and the listener registry it emits "tick" on.
 */
module Simulator {
  import opened Wrappers
  import opened Numerics
  import opened Types
  import opened Events
  import opened Steering

  /** A list of attractors shared by reference between its holders. */
  class AttractorList {
    var items: seq<Attractor>

    constructor(items: seq<Attractor>)
      ensures this.items == items
    {
      this.items := items;
    }
  }

  /** The construction options; every one may be absent. */
  datatype BoidsOptions = BoidsOptions(
    boids: Option<int>,
    speedLimit: Option<real>,
    accelerationLimit: Option<real>,
    separationDistance: Option<real>,
    alignmentDistance: Option<real>,
    cohesionDistance: Option<real>,
    separationForce: Option<real>,
    cohesionForce: Option<real>,
    alignmentForce: Option<real>,
    attractors: Option<AttractorList>)

  /** The options object used when none is given. */
  const NoOptions := BoidsOptions(None, None, None, None, None, None, None, None, None, None)

  /** `option || fallback` on a number: an absent option and a zero both take the fallback. */
  function OrDefault(option: Option<real>, fallback: real): (r: real)
    ensures option.None? ==> r == fallback
    ensures option.Some? && option.value == 0.0 ==> r == fallback
    ensures option.Some? && option.value != 0.0 ==> r == option.value
  {
    match option
    case None => fallback
    case Some(v) => if v == 0.0 then fallback else v
  }

  /**
   * The configuration the constructor stores: every distance and limit
   * resolved against its default and squared, the limits' roots kept
   * beside them, the forces resolved against their defaults.
   */
  function ResolveConfig(o: BoidsOptions): (c: Config)
    ensures c.Consistent()
    ensures c.speedLimitRoot == OrDefault(o.speedLimit, 0.0)
    ensures c.accelerationLimitRoot == OrDefault(o.accelerationLimit, 1.0)
    ensures var d := OrDefault(o.separationDistance, 60.0); c.separationDistance == d * d
    ensures var d := OrDefault(o.alignmentDistance, 180.0); c.alignmentDistance == d * d
    ensures var d := OrDefault(o.cohesionDistance, 180.0); c.cohesionDistance == d * d
    ensures c.separationForce == OrDefault(o.separationForce, 0.15)
    ensures c.cohesionForce == OrDefault(o.cohesionForce, 0.1)
    ensures c.alignmentForce == OrDefault(o.alignmentForce, 0.25)
  {
    var speedRoot := OrDefault(o.speedLimit, 0.0);
    var accelerationRoot := OrDefault(o.accelerationLimit, 1.0);
    var sep := OrDefault(o.separationDistance, 60.0);
    var ali := OrDefault(o.alignmentDistance, 180.0);
    var coh := OrDefault(o.cohesionDistance, 180.0);
    Config(speedRoot * speedRoot, speedRoot, accelerationRoot * accelerationRoot, accelerationRoot,
           sep * sep, ali * ali, coh * coh,
           OrDefault(o.separationForce, 0.15), OrDefault(o.cohesionForce, 0.1), OrDefault(o.alignmentForce, 0.25))
  }

  /** Without options: no speed limit, acceleration limit 1, distances 60, 180, 180 squared. */
  lemma DefaultConfig()
    ensures ResolveConfig(NoOptions)
         == Config(0.0, 0.0, 1.0, 1.0, 3600.0, 32400.0, 32400.0, 0.15, 0.1, 0.25)
  {
    hide Config.Consistent;
    assert 60.0 * 60.0 == 3600.0 && 180.0 * 180.0 == 32400.0;
  }

  /** An acceleration limit of 0 does not switch the clamp off: it takes the default 1. */
  lemma ZeroAccelerationLimitTakesDefault(o: BoidsOptions)
    requires o.accelerationLimit == Some(0.0)
    ensures ResolveConfig(o).accelerationLimit == 1.0
  {
  }

  /**
   * The number of initial boids: 50 when the option is absent, otherwise
   * the option itself (so 0 is honoured), and a negative count makes none.
   */
  function BoidCount(o: BoidsOptions): (n: nat)
    ensures o.boids.None? ==> n == 50
    ensures o.boids.Some? && o.boids.value >= 0 ==> n == o.boids.value
    ensures o.boids.Some? && o.boids.value < 0 ==> n == 0
  {
    match o.boids
    case None => 50
    case Some(k) => if k < 0 then 0 else k
  }

  /**
   * The list without its element at index, keeping the others in order;
   * an index outside the list changes nothing.
   */
  function Removed<T>(s: seq<T>, index: int): (r: seq<T>)
    ensures 0 <= index < |s| ==> |r| == |s| - 1
    ensures 0 <= index < |s| ==> forall j :: 0 <= j < index ==> r[j] == s[j]
    ensures 0 <= index < |s| ==> forall j :: index <= j < |r| ==> r[j] == s[j + 1]
    ensures !(0 <= index < |s|) ==> r == s
  {
    if 0 <= index < |s| then s[..index] + s[index + 1..] else s
  }

  /** Removing an element and adding it back in its place restores the list. */
  lemma RemovedInverse<T>(s: seq<T>, index: int)
    requires 0 <= index < |s|
    ensures Removed(s, index)[..index] + [s[index]] + Removed(s, index)[index..] == s
  {
    var r := Removed(s, index);
    assert r[..index] == s[..index];
    assert r[index..] == s[index + 1..];
  }

  // Lemmas matching the statements of the step with the functions that specify it.

  lemma NudgeInRange(b: BoidData, at: Attractor, spareX: real, spareY: real)
    requires spareX == b.x - at.x && spareY == b.y - at.y
    requires spareX * spareX + spareY * spareY < at.radius * at.radius
    ensures Nudge(b, at) == Normalized(Vec(spareX, spareY), at.force)
  {
    hide Hypot, Normalized, SameDirection, OppositeDirection;
    assert Offset(b.x, b.y, at.x, at.y) == Vec(spareX, spareY);
    assert InRange(b, at);
  }

  lemma PullInRange(b: BoidData, at: Attractor, spareX: real, spareY: real, length: real)
    requires spareX == b.x - at.x && spareY == b.y - at.y
    requires spareX * spareX + spareY * spareY < at.radius * at.radius
    requires length == Hypot(spareX, spareY)
    ensures Pull(b, at)
         == b.(vx := b.vx - OrZero(at.force * spareX, length), vy := b.vy - OrZero(at.force * spareY, length))
  {
    hide Nudge, Hypot, Normalized, SameDirection, OppositeDirection;
    NudgeInRange(b, at, spareX, spareY);
    NormalizedComponents(Vec(spareX, spareY), at.force);
  }

  lemma PullOutOfRange(b: BoidData, at: Attractor, spareX: real, spareY: real)
    requires spareX == b.x - at.x && spareY == b.y - at.y
    requires !(spareX * spareX + spareY * spareY < at.radius * at.radius)
    ensures Pull(b, at) == b
  {
    hide Hypot, Normalized;
    assert Offset(b.x, b.y, at.x, at.y) == Vec(spareX, spareY);
  }

  lemma SteerStep(cfg: Config, b0: BoidData, s: Sums, b: BoidData,
                  sx: real, sy: real, cx: real, cy: real, lx: real, ly: real)
    requires sx == OrZero(cfg.separationForce * s.sep.x, Hypot(s.sep.x, s.sep.y))
    requires sy == OrZero(cfg.separationForce * s.sep.y, Hypot(s.sep.x, s.sep.y))
    requires cx == OrZero(cfg.cohesionForce * s.coh.x, Hypot(s.coh.x, s.coh.y))
    requires cy == OrZero(cfg.cohesionForce * s.coh.y, Hypot(s.coh.x, s.coh.y))
    requires lx == OrZero(cfg.alignmentForce * s.ali.x, Hypot(s.ali.x, s.ali.y))
    requires ly == OrZero(cfg.alignmentForce * s.ali.y, Hypot(s.ali.x, s.ali.y))
    requires b == b0.(ax := b0.ax + sx - cx - lx, ay := b0.ay + sy - cy - ly)
    ensures b == Steer(cfg, b0, s)
  {
    hide Normalized, Hypot, OrZero;
    NormalizedComponents(s.sep, cfg.separationForce);
    NormalizedComponents(s.coh, cfg.cohesionForce);
    NormalizedComponents(s.ali, cfg.alignmentForce);
  }

  lemma VisitStep(cfg: Config, ats: seq<Attractor>, before: seq<BoidData>, i: nat,
                  nudged: seq<BoidData>, currPos: BoidData, sums: Sums, after: seq<BoidData>)
    requires i < |before| && currPos == before[i]
    requires nudged == before[i := PullAll(before[i], ats, |ats|)]
    requires sums == Neighbours(cfg, nudged, i, currPos.Position(), |nudged|)
    requires after == nudged[i := Steer(cfg, nudged[i], sums)]
    ensures after == Visit(cfg, ats, before, i)
  {
    hide Neighbours, Steer, Normalized, Hypot, SquaredLength;
    var n := PullAll(before[i], ats, |ats|);
    assert n.Position() == currPos.Position();
  }

  /** A squared length above a non-negative limit means a positive approximate length. */
  lemma AboveLimit(v: Vec, limit: real)
    requires limit >= 0.0 && v.x * v.x + v.y * v.y > limit
    ensures Hypot(v.x, v.y) > 0.0
  {
    assert v != Zero;
    LengthPositive(v);
  }

  lemma LimitedAbove(v: Vec, limit: real, root: real, ratio: real)
    requires limit != 0.0 && limit >= 0.0 && v.x * v.x + v.y * v.y > limit
    requires Hypot(v.x, v.y) > 0.0 && ratio == root / Hypot(v.x, v.y)
    ensures Limited(v, limit, root) == Vec(v.x * ratio, v.y * ratio)
  {
    hide Hypot, SameDirection, OppositeDirection;
  }

  lemma LimitedWithin(v: Vec, limit: real, root: real)
    requires limit >= 0.0 && (limit == 0.0 || !(v.x * v.x + v.y * v.y > limit))
    ensures Limited(v, limit, root) == v
  {
    hide Hypot, Clamp;
  }

  lemma Phase1Start(cfg: Config, ats: seq<Attractor>, bs: seq<BoidData>)
    ensures Phase1(cfg, ats, bs, 0) == bs
  {
    hide Visit;
  }

  lemma Phase1Step(cfg: Config, ats: seq<Attractor>, bs: seq<BoidData>, k: nat)
    requires k < |bs|
    ensures Phase1(cfg, ats, bs, k + 1) == Visit(cfg, ats, Phase1(cfg, ats, bs, k), k)
  {
    hide Visit;
  }

  lemma PullAllStart(b: BoidData, ats: seq<Attractor>)
    ensures PullAll(b, ats, 0) == b
  {
    hide Pull;
  }

  lemma PullAllStep(b: BoidData, ats: seq<Attractor>, n: nat)
    requires n < |ats|
    ensures PullAll(b, ats, n + 1) == Pull(PullAll(b, ats, n), ats[n])
  {
    hide Pull;
  }

  lemma NeighboursStart(cfg: Config, bs: seq<BoidData>, i: nat, p: Vec)
    ensures Neighbours(cfg, bs, i, p, 0) == NoSums
  {
    hide Classify;
  }

  lemma NeighboursStep(cfg: Config, bs: seq<BoidData>, i: nat, p: Vec, n: nat)
    requires n < |bs|
    ensures Neighbours(cfg, bs, i, p, n + 1)
         == if n == i then Neighbours(cfg, bs, i, p, n) else Classify(cfg, p, bs[n], Neighbours(cfg, bs, i, p, n))
  {
    hide Classify;
  }

  lemma ClassifyWith(cfg: Config, p: Vec, o: BoidData, s: Sums, spareX: real, spareY: real, distSquared: real)
    requires spareX == p.x - o.x && spareY == p.y - o.y
    requires distSquared == spareX * spareX + spareY * spareY
    ensures distSquared < cfg.separationDistance ==>
      Classify(cfg, p, o, s) == s.(sep := Add(s.sep, Vec(spareX, spareY)))
    ensures !(distSquared < cfg.separationDistance) ==>
      var s1 := if distSquared < cfg.cohesionDistance then s.(coh := Add(s.coh, Vec(spareX, spareY))) else s;
      Classify(cfg, p, o, s) == if distSquared < cfg.alignmentDistance then s1.(ali := Add(s1.ali, o.Velocity())) else s1
  {
    assert Offset(p.x, p.y, o.x, o.y) == Vec(spareX, spareY);
  }

  /** Phase 2 is pinned down by its post-state: no acceleration, moved by the limited velocity. */
  lemma IntegrateDetermined(cfg: Config, b: BoidData, r: BoidData)
    requires cfg.Consistent()
    requires r.ax == 0.0 && r.ay == 0.0 && r.x == b.x + r.vx && r.y == b.y + r.vy
    requires var a := Limited(b.Acceleration(), cfg.accelerationLimit, cfg.accelerationLimitRoot);
      r.Velocity() == Limited(Vec(b.vx + a.x, b.vy + a.y), cfg.speedLimit, cfg.speedLimitRoot)
    ensures r == Integrate(cfg, b)
  {
    hide SquaredLength, Hypot, Normalized, Clamp, Limited, Integrate, Config.Consistent;
  }

  lemma TickAssembled(cfg: Config, ats: seq<Attractor>, start: seq<BoidData>,
                      mid: seq<BoidData>, final: seq<BoidData>)
    requires cfg.Consistent()
    requires mid == Phase1(cfg, ats, start, |start|)
    requires |final| == |mid| && forall j :: 0 <= j < |mid| ==> final[j] == Integrate(cfg, mid[j])
    ensures final == TickSpec(cfg, ats, start)
  {
    hide Phase1, Integrate, Config.Consistent;
  }

  class Boids {
    var boids: seq<BoidData>
    const attractors: AttractorList
    const config: Config
    /** The registry the simulator inherits its `on` and `emit` from. */
    const events: EventEmitter

    predicate Valid() { config.Consistent() }

    /**
     * Resolves the options, creates the initial boids from the random
     * draws (four per boid), adopts the given attractor list or a new empty
     * one, and registers the callback, if any, as a "tick" listener.
     */
    constructor(options: BoidsOptions, draws: seq<real>, callback: Option<ListenerId>)
      requires |draws| >= 4 * BoidCount(options)
      requires forall j :: 0 <= j < |draws| ==> IsDraw(draws[j])
      ensures Valid()
      ensures config == ResolveConfig(options)
      ensures boids == InitialBoids(BoidCount(options), draws)
      ensures options.attractors.Some? ==> attractors == options.attractors.value
      ensures options.attractors.None? ==> fresh(attractors) && attractors.items == []
      ensures fresh(events) && events.calls == []
      ensures events.listeners == if callback.Some? then [callback.value] else []
    {
      config := ResolveConfig(options);
      if options.attractors.Some? {
        attractors := options.attractors.value;
      } else {
        attractors := new AttractorList([]);
      }
      events := new EventEmitter();
      var count := BoidCount(options);
      var initial := [];
      for i := 0 to count
        invariant initial == InitialBoids(i, draws)
      {
        initial := initial + [BoidData(draws[4 * i] * 400.0 - 200.0, draws[4 * i + 1] * 400.0 - 200.0,
                                       (draws[4 * i + 2] - 0.5) * 1.0, (draws[4 * i + 3] - 0.5) * 1.0, 0.0, 0.0)];
      }
      boids := initial;
      new;
      if callback.Some? {
        events.On(callback.value);
      }
    }

    /** Registers a "tick" listener. */
    method On(listener: ListenerId)
      modifies events
      ensures events.listeners == old(events.listeners) + [listener]
      ensures events.calls == old(events.calls)
    {
      events.On(listener);
    }

    /** Appends a boid at rest in acceleration; the velocity defaults to zero. */
    method AddBoid(x: real, y: real, vx: real := 0.0, vy: real := 0.0)
      modifies this
      ensures boids == old(boids) + [BoidData(x, y, vx, vy, 0.0, 0.0)]
    {
      boids := boids + [BoidData(x, y, vx, vy, 0.0, 0.0)];
    }

    /** Removes the boid at index; an index outside the list is ignored. */
    method RemoveBoid(index: int)
      modifies this
      ensures boids == Removed(old(boids), index)
    {
      if index >= 0 && index < |boids| {
        boids := boids[..index] + boids[index + 1..];
      }
    }

    method AddAttractor(x: real, y: real, radius: real, force: real)
      modifies attractors
      ensures attractors.items == old(attractors.items) + [Attractor(x, y, radius, force)]
    {
      attractors.items := attractors.items + [Attractor(x, y, radius, force)];
    }

    /** Removes the attractor at index; an index outside the list is ignored. */
    method RemoveAttractor(index: int)
      modifies attractors
      ensures attractors.items == Removed(old(attractors.items), index)
    {
      if index >= 0 && index < |attractors.items| {
        attractors.items := attractors.items[..index] + attractors.items[index + 1..];
      }
    }

    method ClearBoids()
      modifies this
      ensures boids == []
    {
      boids := [];
    }

    method ClearAttractors()
      modifies attractors
      ensures attractors.items == []
    {
      attractors.items := [];
    }
  
    /**
     * The attractor loop for the boid at index current: each attractor in
     * range nudges that boid's velocity, in list order.
     */
    method PullCurrent(current: nat)
      requires current < |boids|
      modifies this
      ensures boids == old(boids)[current := PullAll(old(boids)[current], attractors.items, |attractors.items|)]
    {
      hide Hypot, SquaredLength, PullAll, Pull, Nudge, InRange, Normalized;
      var ats := attractors.items;
      var currPos := boids[current];
      PullAllStart(currPos, ats);
      for target := 0 to |ats|
        invariant boids == old(boids)[current := PullAll(currPos, ats, target)]
      {
        var attractor := ats[target];
        var spareX := currPos.x - attractor.x;
        var spareY := currPos.y - attractor.y;
        var distSquared := spareX * spareX + spareY * spareY;
        ghost var b := boids[current];
        PullAllStep(currPos, ats, target);
        if distSquared < attractor.radius * attractor.radius {
          var length := Hypot(spareX, spareY);
          boids := boids[current := boids[current].(vx := boids[current].vx - OrZero(attractor.force * spareX, length))];
          boids := boids[current := boids[current].(vy := boids[current].vy - OrZero(attractor.force * spareY, length))];
          PullInRange(b, attractor, spareX, spareY, length);
        } else {
          PullOutOfRange(b, attractor, spareX, spareY);
        }
      }
    }

    /**
     * The pair loop for the boid at index current: the separation, cohesion
     * and alignment sums over every other boid, read from the live list.
     */
    method NeighbourSums(current: nat) returns (sforceX: real, sforceY: real, cforceX: real, cforceY: real,
                                                aforceX: real, aforceY: real)
      requires current < |boids|
      ensures Sums(Vec(sforceX, sforceY), Vec(cforceX, cforceY), Vec(aforceX, aforceY))
           == Neighbours(config, boids, current, boids[current].Position(), |boids|)
    {
      hide SquaredLength, Neighbours, Classify;
      sforceX, sforceY := 0.0, 0.0;
      cforceX, cforceY := 0.0, 0.0;
      aforceX, aforceY := 0.0, 0.0;
      var currPos := boids[current];
      NeighboursStart(config, boids, current, currPos.Position());
      for target := 0 to |boids|
        invariant Sums(Vec(sforceX, sforceY), Vec(cforceX, cforceY), Vec(aforceX, aforceY))
               == Neighbours(config, boids, current, currPos.Position(), target)
      {
        NeighboursStep(config, boids, current, currPos.Position(), target);
        if target == current {
          continue;
        }
        var spareX := currPos.x - boids[target].x;
        var spareY := currPos.y - boids[target].y;
        var distSquared := spareX * spareX + spareY * spareY;
        ClassifyWith(config, currPos.Position(), boids[target],
                     Neighbours(config, boids, current, currPos.Position(), target), spareX, spareY, distSquared);
        if distSquared < config.separationDistance {
          sforceX := sforceX + spareX;
          sforceY := sforceY + spareY;
        } else {
          if distSquared < config.cohesionDistance {
            cforceX := cforceX + spareX;
            cforceY := cforceY + spareY;
          }
          if distSquared < config.alignmentDistance {
            aforceX := aforceX + boids[target].vx;
            aforceY := aforceY + boids[target].vy;
          }
        }
      }
    }

    /** Adds the normalised weighted sums into the acceleration of the boid at index current. */
    method ApplyForces(current: nat, sforceX: real, sforceY: real, cforceX: real, cforceY: real,
                       aforceX: real, aforceY: real)
      requires current < |boids|
      modifies this
      ensures boids == old(boids)[current := Steer(config, old(boids)[current],
                Sums(Vec(sforceX, sforceY), Vec(cforceX, cforceY), Vec(aforceX, aforceY)))]
    {
      hide Hypot, Normalized, Steer;
      var b := boids[current];
      var length := Hypot(sforceX, sforceY);
      var sx, sy := OrZero(config.separationForce * sforceX, length), OrZero(config.separationForce * sforceY, length);
      b := b.(ax := b.ax + sx, ay := b.ay + sy);
      length := Hypot(cforceX, cforceY);
      var cx, cy := OrZero(config.cohesionForce * cforceX, length), OrZero(config.cohesionForce * cforceY, length);
      b := b.(ax := b.ax - cx, ay := b.ay - cy);
      length := Hypot(aforceX, aforceY);
      var lx, ly := OrZero(config.alignmentForce * aforceX, length), OrZero(config.alignmentForce * aforceY, length);
      b := b.(ax := b.ax - lx, ay := b.ay - ly);
      SteerStep(config, boids[current], Sums(Vec(sforceX, sforceY), Vec(cforceX, cforceY), Vec(aforceX, aforceY)), b,
                sx, sy, cx, cy, lx, ly);
      boids := boids[current := b];
    }

    /**
     * The clamp block of phase 2, shared by the acceleration and the speed:
     * skipped when the squared limit is 0, otherwise a vector whose squared
     * length exceeds it is rescaled by root / Hypot.
     */
    method Limit(v: Vec, limit: real, root: real) returns (r: Vec)
      requires limit >= 0.0
      ensures r == Limited(v, limit, root)
    {
      hide Hypot, SquaredLength, Clamp, Limited, Normalized, SameDirection, OppositeDirection;
      r := v;
      if limit != 0.0 {
        var distSquared := r.x * r.x + r.y * r.y;
        if distSquared > limit {
          AboveLimit(r, limit);
          var ratio := root / Hypot(r.x, r.y);
          LimitedAbove(r, limit, root, ratio);
          r := r.(x := r.x * ratio, y := r.y * ratio);
        } else {
          LimitedWithin(r, limit, root);
        }
      } else {
        LimitedWithin(r, limit, root);
      }
    }

    /**
     * Phase 2 for one boid: clamp the acceleration, add it to the velocity,
     * clamp the speed, move by the velocity and reset the acceleration.
     */
    method IntegrateBoid(b: BoidData) returns (r: BoidData)
      requires Valid()
      ensures r == Integrate(config, b)
    {
      hide Hypot, SquaredLength, Clamp, Limited, Integrate, Normalized, SameDirection, OppositeDirection,
        Config.Consistent;
      ConsistentLimits(config);
      r := b;
      var a := Limit(r.Acceleration(), config.accelerationLimit, config.accelerationLimitRoot);
      r := r.(ax := a.x, ay := a.y);
      r := r.(vx := r.vx + r.ax, vy := r.vy + r.ay);
      var v := Limit(r.Velocity(), config.speedLimit, config.speedLimitRoot);
      r := r.(vx := v.x, vy := v.y);
      r := r.(x := r.x + r.vx, y := r.y + r.vy);
      r := r.(ax := 0.0, ay := 0.0);
      IntegrateDetermined(config, b, r);
    }

    /**
     * One simulation step, in place: phase 1 visits the boids in order,
     * nudging the visited boid's velocity by the attractors in range and
     * adding the steering forces to its acceleration; phase 2 integrates
     * every boid. Then every "tick" listener is called with the list.
     */
    method Tick()
      requires Valid()
      modifies this, events
      ensures boids == TickSpec(config, attractors.items, old(boids))
      ensures attractors.items == old(attractors.items)
      ensures events.listeners == old(events.listeners)
      ensures events.calls == old(events.calls) + Deliveries(events.listeners, boids)
    {
      hide Hypot, Normalized, SquaredLength, Clamp, Limited, Integrate, Steer, Visit, Phase1,
        PullAll, Pull, Nudge, InRange, Neighbours, Classify, TickSpec, SameDirection, OppositeDirection,
        Config.Consistent;
      var size := |boids|;
      ghost var start := boids;
      ghost var ats := attractors.items;
      Phase1Start(config, ats, start);
      for current := 0 to size
        invariant |boids| == size && unchanged(events)
        invariant boids == Phase1(config, ats, start, current)
      {
        ghost var before := boids;
        var currPos := boids[current];
        PullCurrent(current);
        ghost var nudged := boids;
        var sforceX, sforceY, cforceX, cforceY, aforceX, aforceY := NeighbourSums(current);
        ghost var sums := Sums(Vec(sforceX, sforceY), Vec(cforceX, cforceY), Vec(aforceX, aforceY));
        ApplyForces(current, sforceX, sforceY, cforceX, cforceY, aforceX, aforceY);
        VisitStep(config, ats, before, current, nudged, currPos, sums, boids);
        Phase1Step(config, ats, start, current);
      }

      ghost var mid := boids;
      for current := 0 to size
        invariant |boids| == size && unchanged(events)
        invariant forall j :: 0 <= j < current ==> boids[j] == Integrate(config, mid[j])
        invariant forall j :: current <= j < size ==> boids[j] == mid[j]
      {
        var b := IntegrateBoid(boids[current]);
        boids := boids[current := b];
      }
      TickAssembled(config, ats, start, mid, boids);
      var _ := events.Emit(boids);
    }
  }
}
