/**
 * The steering arithmetic of the angle-based boid: which boids are
 * neighbours, the three rule angles, the reflection at the screen edges and
 * the heading a boid plans for its next frame. Everything here is a pure
 * function of the two shared lists (positions and headings); the
 * transcendental functions are parameters.
 *
 * Headings are degrees measured clockwise from "up". `atan2Deg(a, b)` stands
 * for `atan2(a, b)` converted to degrees.
 */
module Steering {
  import opened RealArith

  const Width: int := 1024
  const Height: int := 576
  const ViewRange: int := 100
  const Velocity: real := 10.0
  const AlignWeight: real := 0.4
  const CohesionWeight: real := 0.4
  const SeparationWeight: real := 0.2
  /** Bound of the random heading change of an isolated boid. */
  const MaxNudge: int := 5

  /** A position as stored in the shared location list (integer pixels). */
  datatype Loc = Loc(x: int, y: int)

  /** A 2D vector of reals. */
  datatype Vec = Vec(x: real, y: real)

  /** Where a newly created boid may be placed. */
  predicate InArena(p: Loc)
  {
    0 <= p.x <= Width && 0 <= p.y <= Height
  }

  function DistSq(a: Loc, b: Loc): int
  {
    (a.x - b.x) * (a.x - b.x) + (a.y - b.y) * (a.y - b.y)
  }

  predicate ValidIndices(idx: seq<nat>, n: nat)
  {
    forall k :: 0 <= k < |idx| ==> idx[k] < n
  }

  predicate StrictlyIncreasing(s: seq<nat>)
  {
    forall j, k :: 0 <= j < k < |s| ==> s[j] < s[k]
  }

  // ---------------------------------------------------------------------
  // Neighbour discovery
  // ---------------------------------------------------------------------

  /**
   * Boid `i` is seen from the position of boid `me` by the boid numbered
   * `self`: strictly inside the view range, and not `self` itself.
   */
  predicate InView(locs: seq<Loc>, me: nat, self: nat, i: nat)
    requires me < |locs| && i < |locs|
  {
    DistSq(locs[i], locs[me]) < ViewRange * ViewRange && i != self
  }

  /** The neighbours among the first `n` boids, in the order they are scanned. */
  function LocalBoids(locs: seq<Loc>, me: nat, self: nat, n: nat): (r: seq<nat>)
    requires n <= |locs| && (n > 0 ==> me < |locs|)
    ensures forall i :: i in r <==> 0 <= i < n && InView(locs, me, self, i)
    ensures StrictlyIncreasing(r)
    ensures ValidIndices(r, n)
  {
    if n == 0 then []
    else
      LocalBoids(locs, me, self, n - 1) + (if InView(locs, me, self, n - 1) then [n - 1] else [])
  }

  /**
   * The view-range test is strict and the boid itself is never its own
   * neighbour: from (0,0), a boid exactly 100 px away is not seen, one 99 px
   * away is.
   */
  lemma ViewRangeIsStrict()
    ensures LocalBoids([Loc(0, 0), Loc(100, 0), Loc(0, 99)], 0, 0, 3) == [2]
  {
    var locs := [Loc(0, 0), Loc(100, 0), Loc(0, 99)];
    assert !InView(locs, 0, 0, 0);
    assert !InView(locs, 0, 0, 1);
    assert InView(locs, 0, 0, 2);
    assert LocalBoids(locs, 0, 0, 2) == [];
  }

  // ---------------------------------------------------------------------
  // Alignment and cohesion
  // ---------------------------------------------------------------------

  /** The headings of the boids listed in `idx`, in that order. */
  function Pick(hs: seq<real>, idx: seq<nat>): (r: seq<real>)
    requires ValidIndices(idx, |hs|)
    ensures |r| == |idx|
    ensures forall k :: 0 <= k < |idx| ==> r[k] == hs[idx[k]]
  {
    seq(|idx|, k requires 0 <= k < |idx| => hs[idx[k]])
  }

  /** The x coordinates of the boids listed in `idx`. */
  function XsOf(locs: seq<Loc>, idx: seq<nat>): (r: seq<real>)
    requires ValidIndices(idx, |locs|)
    ensures |r| == |idx|
    ensures forall k :: 0 <= k < |idx| ==> r[k] == locs[idx[k]].x as real
  {
    seq(|idx|, k requires 0 <= k < |idx| => locs[idx[k]].x as real)
  }

  /** The y coordinates of the boids listed in `idx`. */
  function YsOf(locs: seq<Loc>, idx: seq<nat>): (r: seq<real>)
    requires ValidIndices(idx, |locs|)
    ensures |r| == |idx|
    ensures forall k :: 0 <= k < |idx| ==> r[k] == locs[idx[k]].y as real
  {
    seq(|idx|, k requires 0 <= k < |idx| => locs[idx[k]].y as real)
  }

  /** Cohesion: the bearing of the neighbours' centre of mass, relative to the own heading. */
  function CohesionAngle(locs: seq<Loc>, hs: seq<real>, me: nat, local: seq<nat>,
                         atan2Deg: (real, real) -> real): real
    requires me < |locs| && me < |hs| && |local| > 0 && ValidIndices(local, |locs|)
  {
    atan2Deg(Mean(XsOf(locs, local)) - locs[me].x as real,
             Mean(YsOf(locs, local)) - locs[me].y as real) - hs[me]
  }

  /** A squared offset below the squared view range means an offset strictly inside it. */
  lemma AxisWithinRange(d: int)
    ensures d * d < ViewRange * ViewRange ==> -ViewRange < d < ViewRange
  {
    if d >= ViewRange {
      assert d * d >= ViewRange * d;
    } else if d <= -ViewRange {
      assert d * d >= -ViewRange * d;
    }
  }

  /** Every neighbour is strictly within the view range of the boid on each axis. */
  lemma NeighboursNear(locs: seq<Loc>, me: nat)
    requires me < |locs|
    ensures var local := LocalBoids(locs, me, me, |locs|);
      forall k :: 0 <= k < |local| ==>
        && locs[me].x - ViewRange < locs[local[k]].x < locs[me].x + ViewRange
        && locs[me].y - ViewRange < locs[local[k]].y < locs[me].y + ViewRange
  {
    var local := LocalBoids(locs, me, me, |locs|);
    forall k | 0 <= k < |local|
      ensures locs[me].x - ViewRange < locs[local[k]].x < locs[me].x + ViewRange
      ensures locs[me].y - ViewRange < locs[local[k]].y < locs[me].y + ViewRange
    {
      var dx, dy := locs[local[k]].x - locs[me].x, locs[local[k]].y - locs[me].y;
      assert local[k] in local;
      assert dx * dx + dy * dy < ViewRange * ViewRange;
      assert dx * dx >= 0 && dy * dy >= 0;
      AxisWithinRange(dx);
      AxisWithinRange(dy);
    }
  }

  /**
   * The centre of mass that cohesion steers to lies strictly within the view
   * range of the boid on each axis.
   */
  lemma CentroidNearSubject(locs: seq<Loc>, me: nat)
    requires me < |locs|
    requires LocalBoids(locs, me, me, |locs|) != []
    ensures var local := LocalBoids(locs, me, me, |locs|);
      && locs[me].x as real - ViewRange as real < Mean(XsOf(locs, local)) < locs[me].x as real + ViewRange as real
      && locs[me].y as real - ViewRange as real < Mean(YsOf(locs, local)) < locs[me].y as real + ViewRange as real
  {
    var local := LocalBoids(locs, me, me, |locs|);
    NeighboursNear(locs, me);
    var xs, ys := XsOf(locs, local), YsOf(locs, local);
    MeanStrictlyWithin(xs, (locs[me].x - ViewRange) as real, (locs[me].x + ViewRange) as real);
    MeanStrictlyWithin(ys, (locs[me].y - ViewRange) as real, (locs[me].y + ViewRange) as real);
  }

  // ---------------------------------------------------------------------
  // Separation
  // ---------------------------------------------------------------------

  /**
   * One neighbour's repulsion as the source computes it: the displacement
   * from the neighbour to the boid divided by its squared length. Undefined
   * (a division by zero) when the two positions coincide.
   */
  function RepulsionAsWritten(dx: int, dy: int): Vec
    requires dx * dx + dy * dy != 0
  {
    var magSq := (dx * dx + dy * dy) as real;
    Vec(dx as real / magSq, dy as real / magSq)
  }

  /**
   * The repulsion with the division guarded: a coincident neighbour
   * contributes its raw displacement, which is the zero vector.
   */
  function Repulsion(dx: int, dy: int): (r: Vec)
    ensures dx * dx + dy * dy == 0 ==> r == Vec(0.0, 0.0)
    ensures dx * dx + dy * dy != 0 ==> r == RepulsionAsWritten(dx, dy)
  {
    if dx * dx + dy * dy == 0 then Vec(dx as real, dy as real) else RepulsionAsWritten(dx, dy)
  }

  /**
   * A repulsion term points along the displacement away from the neighbour
   * and its length is the inverse distance: its dot product with the
   * displacement is 1 and its cross product with it is 0.
   */
  lemma RepulsionPointsAway(dx: int, dy: int)
    requires dx * dx + dy * dy != 0
    ensures var r := RepulsionAsWritten(dx, dy);
      r.x * dx as real + r.y * dy as real == 1.0 && r.x * dy as real == r.y * dx as real
  {
    var magSq := (dx * dx + dy * dy) as real;
    var a, b := dx as real, dy as real;
    assert magSq == a * a + b * b;
    calc {
      (a / magSq) * a + (b / magSq) * b;
      (a * a + b * b) / magSq;
      1.0;
    }
    assert (a / magSq) * b == (b / magSq) * a;
  }

  /** No neighbour in `idx` stands exactly on the position of boid `me`. */
  predicate NoCoincident(locs: seq<Loc>, me: nat, idx: seq<nat>)
    requires me < |locs| && ValidIndices(idx, |locs|)
  {
    forall k :: 0 <= k < |idx| ==> DistSq(locs[me], locs[idx[k]]) != 0
  }

  /** The separation sum as the source computes it, defined only without coincident neighbours. */
  function SeparationSumAsWritten(locs: seq<Loc>, me: nat, idx: seq<nat>): Vec
    requires me < |locs| && ValidIndices(idx, |locs|) && NoCoincident(locs, me, idx)
  {
    if idx == [] then Vec(0.0, 0.0)
    else
      var rest := SeparationSumAsWritten(locs, me, idx[..|idx| - 1]);
      var i := idx[|idx| - 1];
      var t := RepulsionAsWritten(locs[me].x - locs[i].x, locs[me].y - locs[i].y);
      Vec(rest.x + t.x, rest.y + t.y)
  }

  /** The separation sum with the guarded repulsion: defined for every neighbour list. */
  function SeparationSum(locs: seq<Loc>, me: nat, idx: seq<nat>): Vec
    requires me < |locs| && ValidIndices(idx, |locs|)
  {
    if idx == [] then Vec(0.0, 0.0)
    else
      var rest := SeparationSum(locs, me, idx[..|idx| - 1]);
      var i := idx[|idx| - 1];
      var t := Repulsion(locs[me].x - locs[i].x, locs[me].y - locs[i].y);
      Vec(rest.x + t.x, rest.y + t.y)
  }

  /** Wherever the source's separation sum is defined, the guarded one agrees with it. */
  lemma {:induction false} SeparationSumAgrees(locs: seq<Loc>, me: nat, idx: seq<nat>)
    requires me < |locs| && ValidIndices(idx, |locs|) && NoCoincident(locs, me, idx)
    ensures SeparationSum(locs, me, idx) == SeparationSumAsWritten(locs, me, idx)
  {
    if idx != [] {
      var init := idx[..|idx| - 1];
      assert NoCoincident(locs, me, init) by {
        forall k | 0 <= k < |init| ensures DistSq(locs[me], locs[init[k]]) != 0 {
          assert init[k] == idx[k];
        }
      }
      SeparationSumAgrees(locs, me, init);
      var i := idx[|idx| - 1];
      assert DistSq(locs[me], locs[i]) != 0;
    }
  }

  /** A neighbour standing on the boid's own position adds nothing to the guarded sum. */
  lemma CoincidentNeighbourIgnored(locs: seq<Loc>, me: nat, idx: seq<nat>, j: nat)
    requires me < |locs| && j < |locs| && ValidIndices(idx, |locs|)
    requires locs[j] == locs[me]
    ensures SeparationSum(locs, me, idx + [j]) == SeparationSum(locs, me, idx)
  {
    assert (idx + [j])[..|idx|] == idx;
  }

  /**
   * The source's separation fails on a reachable start: two boids drawn at
   * the same position are each other's neighbours, and the sum then divides
   * by a zero squared distance.
   */
  lemma CoincidentStartBreaksSeparation()
    ensures var locs := [Loc(5, 5), Loc(5, 5)];
      && InArena(locs[0]) && InArena(locs[1])
      && LocalBoids(locs, 0, 0, 2) == [1]
      && !NoCoincident(locs, 0, [1])
  {
    var locs := [Loc(5, 5), Loc(5, 5)];
    assert !InView(locs, 0, 0, 0);
    assert InView(locs, 0, 0, 1);
    assert LocalBoids(locs, 0, 0, 1) == [];
  }

  /** Separation: the bearing of the summed repulsion, relative to the own heading. */
  function SeparationAngle(locs: seq<Loc>, hs: seq<real>, me: nat, local: seq<nat>,
                           atan2Deg: (real, real) -> real): real
    requires me < |locs| && me < |hs| && ValidIndices(local, |locs|)
  {
    var s := SeparationSum(locs, me, local);
    atan2Deg(s.x, s.y) - hs[me]
  }

  // ---------------------------------------------------------------------
  // Reflection at the screen edges
  // ---------------------------------------------------------------------

  /** Reflection off a side wall. */
  function SideReflect(h: real): real
  {
    360.0 - h
  }

  /** Reflection off the top or bottom wall, reduced into [0, 360). */
  function TopBottomReflect(h: real): real
  {
    Mod360(540.0 - h)
  }

  predicate OutsideX(x: real)
  {
    x < 0.0 || x > Width as real
  }

  predicate OutsideY(y: real)
  {
    y < 0.0 || y > Height as real
  }

  /**
   * The heading after checking the next position against the screen: a side
   * wall takes precedence over the top and bottom.
   */
  function Bounce(h: real, x: real, y: real): (r: real)
    ensures OutsideX(x) ==> r + h == 360.0
    ensures !OutsideX(x) && OutsideY(y) ==> 0.0 <= r < 360.0 && Mod360(r + h) == 180.0
    ensures !OutsideX(x) && !OutsideY(y) ==> r == h
  {
    if OutsideX(x) then SideReflect(h)
    else if OutsideY(y) then
      var r := TopBottomReflect(h);
      TopBottomSum(h);
      r
    else h
  }

  /** A top/bottom reflection and the heading it came from add up to 180 modulo 360. */
  lemma TopBottomSum(h: real)
    ensures Mod360(TopBottomReflect(h) + h) == 180.0
  {
    var a := 540.0 - h;
    var k := (a / 360.0).Floor;
    assert TopBottomReflect(h) == a - 360.0 * k as real;
    var s := TopBottomReflect(h) + h;
    assert s == 540.0 - 360.0 * k as real;
    Mod360Shift(s, 1 - k);
  }

  /** Reflecting twice off a side wall restores the heading. */
  lemma SideReflectInvolution(h: real)
    ensures SideReflect(SideReflect(h)) == h
  {
  }

  /** Reflecting twice off the top or bottom restores any heading in [0, 360). */
  lemma TopBottomReflectInvolution(h: real)
    requires 0.0 <= h < 360.0
    ensures TopBottomReflect(TopBottomReflect(h)) == h
  {
    if h <= 180.0 {
      Mod360Shift(540.0 - h, 1);
      Mod360Shift(540.0 - (180.0 - h), 1);
    } else {
      Mod360Shift(540.0 - h, 0);
      Mod360Shift(540.0 - (540.0 - h), 0);
    }
  }

  // ---------------------------------------------------------------------
  // The planned heading
  // ---------------------------------------------------------------------

  /** The weighted combination of the three rule angles, reduced into [0, 360). */
  function CombinedHeading(alignment: real, cohesion: real, separation: real): (r: real)
    ensures 0.0 <= r < 360.0
  {
    Mod360(alignment * AlignWeight + cohesion * CohesionWeight + separation * SeparationWeight)
  }

  /**
   * The heading boid `me` takes before the edge check: the combined rules
   * when it has neighbours, otherwise its own heading plus the random nudge.
   */
  function PlannedHeading(locs: seq<Loc>, hs: seq<real>, me: nat,
                          atan2Deg: (real, real) -> real, nudge: int): (h: real)
    requires me < |locs| == |hs|
    requires -MaxNudge <= nudge <= MaxNudge
    ensures LocalBoids(locs, me, me, |locs|) != [] ==> 0.0 <= h < 360.0
    ensures LocalBoids(locs, me, me, |locs|) == [] ==>
      hs[me] - MaxNudge as real <= h <= hs[me] + MaxNudge as real && h - hs[me] == nudge as real
  {
    var local := LocalBoids(locs, me, me, |locs|);
    if |local| != 0 then
      CombinedHeading(Mean(Pick(hs, local)),
                      CohesionAngle(locs, hs, me, local, atan2Deg),
                      SeparationAngle(locs, hs, me, local, atan2Deg))
    else
      hs[me] + nudge as real
  }
}
