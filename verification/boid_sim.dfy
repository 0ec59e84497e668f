/**
 * The boid objects and the shared state they read and write.
 *
 * The source keeps two module-level lists, one position and one heading per
 * boid, that every boid reads while steering; here they are the fields of a
 * `World` object that every `Boid` refers to. Each boid also keeps its own
 * drawing position (`rectX`, `rectY`), which it moves every frame.
 */
module BoidSim {
  import opened RealArith
  import opened Steering

  /** The two shared lists: start positions and current headings, by boid number. */
  class World {
    var locations: seq<Loc>
    var headings: seq<real>

    /** One heading per position, and every stored position on the screen. */
    ghost predicate Valid()
      reads this
    {
      && |locations| == |headings|
      && forall k :: 0 <= k < |locations| ==> InArena(locations[k])
    }

    constructor ()
      ensures Valid()
      ensures locations == [] && headings == []
    {
      locations := [];
      headings := [];
    }
  }

  class Boid {
    const boidNo: nat
    const world: World
    var rectX: real
    var rectY: real

    ghost predicate Valid()
      reads this, world
    {
      world.Valid() && boidNo < |world.locations|
    }

    /**
     * Creates boid `i` at a random start: the caller supplies the values the
     * random draws produced, within their ranges. The position and heading
     * are appended to the shared lists, then the heading is stored again at
     * index `i`.
     */
    constructor (i: nat, w: World, xpos: int, ypos: int, heading: int)
      requires w.Valid() && i <= |w.headings|
      requires 0 <= xpos <= Width && 0 <= ypos <= Height
      requires 0 <= heading <= 360
      modifies w
      ensures boidNo == i && world == w && Valid()
      ensures w.locations == old(w.locations) + [Loc(xpos, ypos)]
      ensures w.headings == (old(w.headings) + [heading as real])[i := heading as real]
      ensures rectX == xpos as real && rectY == ypos as real
    {
      boidNo := i;
      world := w;
      rectX := xpos as real;
      rectY := ypos as real;
      new;
      w.locations := w.locations + [Loc(xpos, ypos)];
      w.headings := w.headings + [heading as real];
      w.headings := w.headings[i := heading as real];
    }

    /**
     * The boids within view range of the position of boid `myIndex`, other
     * than this boid itself, in increasing index order.
     */
    method FindLocalBoids(myIndex: nat) returns (local: seq<nat>)
      requires |world.locations| > 0 ==> myIndex < |world.locations|
      ensures local == LocalBoids(world.locations, myIndex, boidNo, |world.locations|)
      ensures forall i :: i in local <==>
        && 0 <= i < |world.locations|
        && DistSq(world.locations[i], world.locations[myIndex]) < ViewRange * ViewRange
        && i != boidNo
      ensures StrictlyIncreasing(local)
    {
      var locs := world.locations;
      local := [];
      var i := 0;
      while i < |locs|
        invariant 0 <= i <= |locs|
        invariant local == LocalBoids(locs, myIndex, boidNo, i)
      {
        var dx := locs[i].x - locs[myIndex].x;
        var dy := locs[i].y - locs[myIndex].y;
        var distSq := dx * dx + dy * dy;
        if distSq < ViewRange * ViewRange && i != boidNo {
          local := local + [i];
        }
        i := i + 1;
      }
    }

    /**
     * Alignment: the average heading of the neighbours, which lies between
     * the smallest and the largest of their headings.
     */
    method Alignment(local: seq<nat>) returns (mean: real)
      requires |local| > 0 && ValidIndices(local, |world.headings|)
      ensures mean == Mean(Pick(world.headings, local))
      ensures MinOf(Pick(world.headings, local)) <= mean <= MaxOf(Pick(world.headings, local))
    {
      ghost var picked := Pick(world.headings, local);
      var headingsSum := 0.0;
      for k := 0 to |local|
        invariant headingsSum == Sum(picked[..k])
      {
        assert picked[..k + 1][..k] == picked[..k];
        headingsSum := headingsSum + world.headings[local[k]];
      }
      assert picked[..|local|] == picked;
      mean := headingsSum / |local| as real;
      MeanBetween(picked);
    }

    /**
     * Cohesion: the bearing from this boid to the centre of mass of its
     * neighbours, minus its own heading.
     */
    method Cohesion(local: seq<nat>, atan2Deg: (real, real) -> real) returns (angle: real)
      requires Valid() && |local| > 0 && ValidIndices(local, |world.locations|)
      ensures angle == CohesionAngle(world.locations, world.headings, boidNo, local, atan2Deg)
    {
      ghost var xs, ys := XsOf(world.locations, local), YsOf(world.locations, local);
      var xSum, ySum := 0.0, 0.0;
      for k := 0 to |local|
        invariant xSum == Sum(xs[..k]) && ySum == Sum(ys[..k])
      {
        assert xs[..k + 1][..k] == xs[..k];
        assert ys[..k + 1][..k] == ys[..k];
        xSum := xSum + world.locations[local[k]].x as real;
        ySum := ySum + world.locations[local[k]].y as real;
      }
      assert xs[..|local|] == xs && ys[..|local|] == ys;
      xSum := xSum / |local| as real;
      ySum := ySum / |local| as real;
      var me := world.locations[boidNo];
      angle := atan2Deg(xSum - me.x as real, ySum - me.y as real) - world.headings[boidNo];
    }

    /**
     * Separation: the bearing of the summed inverse-square repulsion from the
     * neighbours, minus the own heading. A neighbour on the boid's own
     * position contributes nothing instead of dividing by zero.
     */
    method Separation(local: seq<nat>, atan2Deg: (real, real) -> real) returns (angle: real)
      requires Valid() && ValidIndices(local, |world.locations|)
      ensures angle == SeparationAngle(world.locations, world.headings, boidNo, local, atan2Deg)
    {
      var locs := world.locations;
      var xSum, ySum := 0.0, 0.0;
      for k := 0 to |local|
        invariant SeparationSum(locs, boidNo, local[..k]) == Vec(xSum, ySum)
      {
        assert local[..k + 1][..k] == local[..k];
        var i := local[k];
        var dx := locs[boidNo].x - locs[i].x;
        var dy := locs[boidNo].y - locs[i].y;
        var magSq := dx * dx + dy * dy;
        if magSq == 0 {
          xSum := xSum + dx as real;
          ySum := ySum + dy as real;
        } else {
          xSum := xSum + dx as real / magSq as real;
          ySum := ySum + dy as real / magSq as real;
        }
      }
      assert local[..|local|] == local;
      angle := atan2Deg(xSum, ySum) - world.headings[boidNo];
    }

    /**
     * The heading this boid steers to before the edge check: the weighted
     * rules reduced into [0, 360) when it has neighbours, otherwise its own
     * heading moved by the random nudge.
     */
    method SteerHeading(atan2Deg: (real, real) -> real, nudge: int) returns (newHeading: real)
      requires Valid()
      requires -MaxNudge <= nudge <= MaxNudge
      ensures newHeading == PlannedHeading(world.locations, world.headings, boidNo, atan2Deg, nudge)
    {
      var local := FindLocalBoids(boidNo);
      if |local| != 0 {
        var alignmentAngle := Alignment(local);
        var cohesionAngle := Cohesion(local, atan2Deg);
        var separationAngle := Separation(local, atan2Deg);
        newHeading := CombinedHeading(alignmentAngle, cohesionAngle, separationAngle);
      } else {
        newHeading := world.headings[boidNo] + nudge as real;
      }
    }

    /**
     * One frame for this boid: plan a heading, move the drawing position
     * along it, reflect the heading if that position is off the screen and
     * store it. Only this boid's heading and drawing position change; the
     * shared position list is left as it was.
     */
    method Update(sinDeg: real -> real, cosDeg: real -> real,
                  atan2Deg: (real, real) -> real, nudge: int)
      requires Valid()
      requires -MaxNudge <= nudge <= MaxNudge
      modifies this`rectX, this`rectY, world`headings
      ensures Valid()
      ensures world.locations == old(world.locations)
      ensures var h := PlannedHeading(old(world.locations), old(world.headings), boidNo, atan2Deg, nudge);
        var nx := old(rectX) + Velocity * sinDeg(h);
        var ny := old(rectY) + Velocity * cosDeg(h);
        && rectX == nx && rectY == ny
        && world.headings == old(world.headings)[boidNo := Bounce(h, nx, ny)]
    {
      var newHeading := SteerHeading(atan2Deg, nudge);
      var newX := rectX + Velocity * sinDeg(newHeading);
      var newY := rectY + Velocity * cosDeg(newHeading);
      newHeading := Bounce(newHeading, newX, newY);
      world.headings := world.headings[boidNo := newHeading];
      rectX := newX;
      rectY := newY;
    }
  }
}
