/**
 * The demo page driving the simulator: it owns a one-attractor list that
 * the mouse moves, wraps the boids around the canvas edges when drawing
 * them, and grows or shrinks the flock by one boid per second according to
 * the measured frame rate. Drawing, the page and the timer are outside the
 * model; the canvas size, the clock and the random draws are parameters.
 */
module Demo {
  import opened Wrappers
  import opened Types
  import opened Steering
  import opened Simulator
  import opened Events

  /**
   * The wrap-around of one coordinate against half the canvas size: past
   * the far edge it jumps to the near one and the other way round, and
   * inside the canvas it stays. For a non-negative half size the result
   * lies on the canvas.
   */
  function Wrap(c: real, half: real): (r: real)
    ensures c > half ==> r == -half
    ensures c < -half && !(c > half) ==> r == half
    ensures -half <= c <= half ==> r == c
    ensures half >= 0.0 ==> -half <= r <= half
  {
    if c > half then -half else if -c > half then half else c
  }

  /** Wrapping twice is wrapping once. */
  lemma WrapIdempotent(c: real, half: real)
    requires half >= 0.0
    ensures Wrap(Wrap(c, half), half) == Wrap(c, half)
  {
  }

  /** The render step for one boid: only the position is wrapped. */
  function WrapBoid(b: BoidData, halfWidth: real, halfHeight: real): (r: BoidData)
    ensures r.vx == b.vx && r.vy == b.vy && r.ax == b.ax && r.ay == b.ay
    ensures r.x == Wrap(b.x, halfWidth) && r.y == Wrap(b.y, halfHeight)
  {
    b.(x := Wrap(b.x, halfWidth), y := Wrap(b.y, halfHeight))
  }

  predicate OnCanvas(b: BoidData, halfWidth: real, halfHeight: real)
  {
    -halfWidth <= b.x <= halfWidth && -halfHeight <= b.y <= halfHeight
  }

  /** Every boid of a wrapped list is on the canvas, and a boid already on it does not move. */
  lemma WrapBoidOnCanvas(b: BoidData, halfWidth: real, halfHeight: real)
    requires halfWidth >= 0.0 && halfHeight >= 0.0
    ensures OnCanvas(WrapBoid(b, halfWidth, halfHeight), halfWidth, halfHeight)
    ensures OnCanvas(b, halfWidth, halfHeight) ==> WrapBoid(b, halfWidth, halfHeight) == b
  {
  }

  /**
   * The population rule: at 56 frames per second or fewer a flock of more
   * than 10 loses its last boid; otherwise at 60 or more a flock of fewer
   * than 500 gains a boid at the origin with the given velocity.
   */
  function Adjust(fps: int, bs: seq<BoidData>, vx: real, vy: real): (r: seq<BoidData>)
    ensures |bs| - 1 <= |r| <= |bs| + 1
    ensures 10 <= |bs| <= 500 ==> 10 <= |r| <= 500
    ensures 56 < fps < 60 ==> r == bs
  {
    if fps <= 56 && |bs| > 10 then
      Removed(bs, |bs| - 1)
    else if fps >= 60 && |bs| < 500 then
      bs + [BoidData(0.0, 0.0, vx, vy, 0.0, 0.0)]
    else
      bs
  }

  /** A slow frame rate drops exactly the last boid and keeps the others in order. */
  lemma AdjustDropsLast(fps: int, bs: seq<BoidData>, vx: real, vy: real)
    requires fps <= 56 && |bs| > 10
    ensures Adjust(fps, bs, vx, vy) == bs[..|bs| - 1]
  {
  }

  /** A fast frame rate appends one boid at the origin, with zero acceleration. */
  lemma AdjustAppends(fps: int, bs: seq<BoidData>, vx: real, vy: real)
    requires fps >= 60 && |bs| < 500
    ensures var r := Adjust(fps, bs, vx, vy);
      r[..|bs|] == bs && |r| == |bs| + 1
      && r[|bs|].x == 0.0 && r[|bs|].y == 0.0 && r[|bs|].vx == vx && r[|bs|].vy == vy
      && r[|bs|].ax == 0.0 && r[|bs|].ay == 0.0
  {
  }

  /** `Math.round`: the nearest integer, halves rounded up. */
  function Round(x: real): (r: int)
    ensures x - 0.5 < r as real <= x + 0.5
  {
    (x + 0.5).Floor
  }

  /** The options the demo builds its simulator with, around its own attractor list. */
  function DemoOptions(attractors: AttractorList): BoidsOptions
  {
    BoidsOptions(Some(300), Some(1.2), Some(0.1), Some(80.0), Some(250.0), Some(220.0),
                 Some(0.12), Some(0.08), Some(0.45), Some(attractors))
  }

  /** The demo's resolved configuration, with every limit and distance squared. */
  lemma DemoConfig(attractors: AttractorList)
    ensures ResolveConfig(DemoOptions(attractors))
         == Config(1.44, 1.2, 0.01, 0.1, 6400.0, 62500.0, 48400.0, 0.12, 0.08, 0.45)
  {
    hide Config.Consistent;
    assert 1.2 * 1.2 == 1.44 && 0.1 * 0.1 == 0.01;
    assert 80.0 * 80.0 == 6400.0 && 250.0 * 250.0 == 62500.0 && 220.0 * 220.0 == 48400.0;
  }

  class BoidsDemo {
    const flock: Boids
    /** The list the mouse moves; the simulator holds the same list. */
    const attractors: AttractorList
    var width: nat
    var height: nat
    var lastTime: real
    var fps: int
    var frameCount: nat

    predicate Valid()
    {
      flock.attractors == attractors && flock.Valid()
    }

    /**
     * Builds the attractor list with one attractor (radius 200, force 0.1)
     * at a caller-chosen far point, the simulator with the demo options and
     * 300 boids from the draws, and starts the frame clock at startTime.
     */
    constructor(farX: real, farY: real, draws: seq<real>, startTime: real, width: nat, height: nat)
      requires |draws| >= 1200
      requires forall j :: 0 <= j < |draws| ==> IsDraw(draws[j])
      ensures Valid()
      ensures attractors.items == [Attractor(farX, farY, 200.0, 0.1)]
      ensures flock.config == ResolveConfig(DemoOptions(attractors))
      ensures flock.boids == InitialBoids(300, draws) && |flock.boids| == 300
      ensures flock.events.listeners == [] && flock.events.calls == []
      ensures this.width == width && this.height == height
      ensures lastTime == startTime && fps == 0 && frameCount == 0
    {
      var list := new AttractorList([Attractor(farX, farY, 200.0, 0.1)]);
      attractors := list;
      flock := new Boids(DemoOptions(list), draws, None);
      this.width := width;
      this.height := height;
      lastTime := startTime;
      fps := 0;
      frameCount := 0;
    }

    function HalfWidth(): real
      reads this
    {
      width as real / 2.0
    }

    function HalfHeight(): real
      reads this
    {
      height as real / 2.0
    }

    /** The mouse handler: the first attractor follows the pointer, in canvas-centred coordinates. */
    method MoveAttractor(clientX: real, clientY: real)
      requires Valid() && |attractors.items| >= 1
      modifies attractors
      ensures Valid()
      ensures attractors.items
           == old(attractors.items)[0 := old(attractors.items)[0].(x := clientX - HalfWidth(), y := clientY - HalfHeight())]
      ensures flock.attractors.items[0].x == clientX - HalfWidth()
      ensures flock.attractors.items[0].y == clientY - HalfHeight()
    {
      var halfHeight := height as real / 2.0;
      var halfWidth := width as real / 2.0;
      attractors.items := attractors.items[0 := attractors.items[0].(x := clientX - halfWidth)];
      attractors.items := attractors.items[0 := attractors.items[0].(y := clientY - halfHeight)];
    }

    /** The resize handler: the canvas takes the window's size. */
    method Resize(innerWidth: nat, innerHeight: nat)
      modifies this
      ensures width == innerWidth && height == innerHeight
      ensures lastTime == old(lastTime) && fps == old(fps) && frameCount == old(frameCount)
    {
      width := innerWidth;
      height := innerHeight;
    }

    /**
     * Changes the flock by at most one boid according to the last measured
     * frame rate; a new boid takes velocity draw * 6 - 3 on each axis.
     */
    method AdjustBoidCount(drawX: real, drawY: real)
      modifies flock
      ensures flock.boids == Adjust(fps, old(flock.boids), drawX * 6.0 - 3.0, drawY * 6.0 - 3.0)
    {
      var currentCount := |flock.boids|;
      if fps <= 56 && currentCount > 10 {
        flock.RemoveBoid(currentCount - 1);
      } else if fps >= 60 && currentCount < 500 {
        flock.AddBoid(0.0, 0.0, drawX * 6.0 - 3.0, drawY * 6.0 - 3.0);
      }
    }

    /**
     * Counts the frame; once a second or more has passed since the last
     * measurement, stores the rounded frame rate, restarts the count and the
     * window and adjusts the flock once.
     */
    method UpdateFPS(currentTime: real, drawX: real, drawY: real)
      modifies this, flock
      ensures old(currentTime - lastTime >= 1000.0) ==>
        fps == Round((old(frameCount + 1) as real * 1000.0) / (currentTime - old(lastTime)))
        && frameCount == 0 && lastTime == currentTime
        && flock.boids == Adjust(fps, old(flock.boids), drawX * 6.0 - 3.0, drawY * 6.0 - 3.0)
      ensures old(currentTime - lastTime < 1000.0) ==>
        frameCount == old(frameCount) + 1 && lastTime == old(lastTime) && fps == old(fps)
        && flock.boids == old(flock.boids)
      ensures width == old(width) && height == old(height)
    {
      frameCount := frameCount + 1;
      if currentTime - lastTime >= 1000.0 {
        fps := Round((frameCount as real * 1000.0) / (currentTime - lastTime));
        frameCount := 0;
        lastTime := currentTime;
        AdjustBoidCount(drawX, drawY);
      }
    }

    /** Wraps every boid's position around the canvas edges, in place. */
    method Render()
      modifies flock
      ensures |flock.boids| == |old(flock.boids)|
      ensures forall i :: 0 <= i < |flock.boids| ==>
        flock.boids[i] == WrapBoid(old(flock.boids)[i], HalfWidth(), HalfHeight())
    {
      var halfHeight := height as real / 2.0;
      var halfWidth := width as real / 2.0;
      for i := 0 to |flock.boids|
        invariant |flock.boids| == |old(flock.boids)|
        invariant forall j :: 0 <= j < i ==> flock.boids[j] == WrapBoid(old(flock.boids)[j], halfWidth, halfHeight)
        invariant forall j :: i <= j < |flock.boids| ==> flock.boids[j] == old(flock.boids)[j]
      {
        var x := flock.boids[i].x;
        var y := flock.boids[i].y;
        flock.boids := flock.boids[i := flock.boids[i].(x := if x > halfWidth then -halfWidth else if -x > halfWidth then halfWidth else x)];
        flock.boids := flock.boids[i := flock.boids[i].(y := if y > halfHeight then -halfHeight else if -y > halfHeight then halfHeight else y)];
      }
    }

    /**
     * One animation frame: the frame-rate bookkeeping (which may adjust
     * the flock), one simulation step, then the wrap-around; afterwards
     * every boid is on the canvas.
     */
    method Animate(currentTime: real, drawX: real, drawY: real)
      requires Valid()
      modifies this, flock, flock.events
      ensures Valid()
      ensures var adjusted := if old(currentTime - lastTime >= 1000.0) then
                Adjust(fps, old(flock.boids), drawX * 6.0 - 3.0, drawY * 6.0 - 3.0)
              else old(flock.boids);
        var stepped := TickSpec(flock.config, attractors.items, adjusted);
        && |flock.boids| == |stepped|
        && (forall i :: 0 <= i < |stepped| ==> flock.boids[i] == WrapBoid(stepped[i], HalfWidth(), HalfHeight()))
        && flock.events.calls == old(flock.events.calls) + Deliveries(flock.events.listeners, stepped)
      ensures forall i :: 0 <= i < |flock.boids| ==> OnCanvas(flock.boids[i], HalfWidth(), HalfHeight())
      ensures flock.events.listeners == old(flock.events.listeners)
      ensures old(currentTime - lastTime >= 1000.0) ==>
        fps == Round((old(frameCount + 1) as real * 1000.0) / (currentTime - old(lastTime)))
        && frameCount == 0 && lastTime == currentTime
      ensures old(currentTime - lastTime < 1000.0) ==>
        frameCount == old(frameCount) + 1 && lastTime == old(lastTime) && fps == old(fps)
      ensures width == old(width) && height == old(height)
    {
      UpdateFPS(currentTime, drawX, drawY);
      flock.Tick();
      ghost var stepped := flock.boids;
      Render();
      forall i | 0 <= i < |flock.boids|
        ensures OnCanvas(flock.boids[i], HalfWidth(), HalfHeight())
      {
        WrapBoidOnCanvas(stepped[i], HalfWidth(), HalfHeight());
      }
    }
  }
}
