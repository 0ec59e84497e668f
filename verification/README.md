# Angle-based boids: a Dafny model of the steering core

This project models the flocking logic of `boids_algorithm.py`, the angle-based boid simulation.
Every boid is a sprite with a number. Two module-level lists hold one start position and one
heading per boid. Headings are in degrees, clockwise from "up". Each frame a boid does four things:

- it finds the other boids strictly within 100 px of its position;
- if it has any, it combines three angles: the neighbours' mean heading (alignment), the bearing to
  their centre of mass (cohesion) and the bearing of their summed inverse-square repulsion
  (separation), weighted 0.4 / 0.4 / 0.2 and reduced modulo 360;
- if it has none, it moves its heading by a random whole number of degrees in [-5, 5];
- it moves its drawing position 10 px along that heading, reflects the heading if the new position
  is off the 1024 × 576 screen (a side wall takes precedence over top and bottom), and stores the
  heading in its own slot of the shared list.

The model has three modules:

- `RealArith` (`real_arith.dfy`): sums, minimum, maximum and mean of real sequences, and Python's
  float `%` by 360 written with `Floor`.
- `Steering` (`steering.dfy`): the constants and the pure specification of each step as functions
  of the two lists. This covers the neighbour filter, the three rule angles, the reflections and
  the planned heading, with the lemmas about them.
- `BoidSim` (`boid_sim.dfy`): the imperative model. A `World` object holds the two shared lists as
  fields. A `Boid` object holds its number, a reference to the world and its drawing position.
  Its methods are the source's loops, each proved against the function in `Steering` that
  specifies it. `Update` writes only this boid's heading slot and its drawing position.

The code never writes to the position list after a boid is created. So the neighbour sets, the
centres of mass and the repulsions are all computed from the start positions for the whole run,
while the drawn position moves. `Boid.Update` states this: it leaves `world.locations` unchanged.
The model follows the code here. It also follows this file rather than the repository's later
vector-based variants: headings are stored as angles, and the shared heading list is updated in
place, one boid at a time.
A boid updated later in a frame therefore reads the new headings of the boids updated before it.

The transcendental functions are parameters: `sinDeg`, `cosDeg` and `atan2Deg` stand for
`sin`/`cos` of an angle in degrees and for `atan2` converted to degrees. Random draws are
parameters constrained to the ranges `randint` produces.

## Model

| member | source | states |
|---|---|---|
| `RealArith.Mod360` | boids_algorithm.py:164 | Python's float remainder by 360 always lies in [0, 360) |
| `RealArith.Mod360Shift` | boids_algorithm.py:146 | on the window [360k, 360(k+1)) the remainder is exactly `a - 360k` |
| `RealArith.MeanBetween` | boids_algorithm.py:84-89 | the mean of a non-empty list lies between its minimum and maximum |
| `Steering.LocalBoids` | boids_algorithm.py:70-78 | the result holds exactly the indices `i < n` whose squared distance to boid `me` is strictly below 100², other than `self`; it is strictly increasing, so it has no duplicates |
| `Steering.ViewRangeIsStrict` | boids_algorithm.py:75 | a boid exactly 100 px away is not a neighbour, one 99 px away is, and the boid itself (distance 0) is not |
| `Steering.NeighboursNear` | boids_algorithm.py:73-75 | every neighbour is strictly within 100 px of the boid on each axis |
| `Steering.CentroidNearSubject` | boids_algorithm.py:95-105 | the centre of mass that cohesion steers to is strictly within 100 px of the boid on each axis |
| `Steering.Repulsion` | boids_algorithm.py:122-129 | one neighbour's repulsion equals the source's `dx/mag_sq, dy/mag_sq` whenever that is defined, and is the zero vector for a neighbour on the boid's own position |
| `Steering.RepulsionPointsAway` | boids_algorithm.py:123-129 | a repulsion term is parallel to the displacement away from the neighbour, and its dot product with that displacement is 1, so its length is the inverse distance |
| `Steering.SeparationSumAgrees` | boids_algorithm.py:122-129 | the guarded separation sum equals the source's sum whenever no neighbour shares the boid's position |
| `Steering.CoincidentNeighbourIgnored` | boids_algorithm.py:126-129 | with the guarded sum, a neighbour on the boid's own position adds nothing |
| `Steering.CoincidentStartBreaksSeparation` | boids_algorithm.py:126-129 | two boids started at the same position are each other's neighbours, and the source's separation then divides by zero |
| `Steering.Bounce` | boids_algorithm.py:136-148 | off the screen in x: the new heading plus the old heading is 360, whatever y is. In x but off in y: the new heading is in [0, 360) and the two headings add up to 180 modulo 360. On screen: the heading is unchanged |
| `Steering.TopBottomSum` | boids_algorithm.py:146 | a top/bottom reflection and the heading it came from add up to 180 modulo 360 |
| `Steering.SideReflectInvolution` | boids_algorithm.py:142 | reflecting twice off a side wall restores the heading |
| `Steering.TopBottomReflectInvolution` | boids_algorithm.py:146 | reflecting twice off the top or bottom restores any heading in [0, 360) |
| `Steering.CombinedHeading` | boids_algorithm.py:163-164 | the weighted combination of the three rule angles lies in [0, 360) |
| `Steering.PlannedHeading` | boids_algorithm.py:154-168 | with neighbours the planned heading lies in [0, 360); without neighbours it is the old heading plus the nudge, so within 5 degrees of it and not reduced |
| `BoidSim.World.constructor` | boids_algorithm.py:23-24 | the shared lists start empty |
| `BoidSim.Boid.constructor` | boids_algorithm.py:27-50 | a new boid appends its start position (within [0, 1024] × [0, 576]) and its heading (within [0, 360]); the heading is then stored at index `i`; the drawing position is the start position; every stored position stays on the screen |
| `BoidSim.Boid.FindLocalBoids` | boids_algorithm.py:66-78 | the scan returns exactly the indices strictly within view range of boid `myIndex` and other than this boid, in increasing order |
| `BoidSim.Boid.Alignment` | boids_algorithm.py:80-89 | the result is the mean heading of the neighbours and lies between their smallest and largest heading |
| `BoidSim.Boid.Cohesion` | boids_algorithm.py:91-110 | the accumulated sums give the neighbours' centre of mass; the result is the bearing to it minus the own heading |
| `BoidSim.Boid.Separation` | boids_algorithm.py:112-134 | the accumulated sums are the guarded separation sum; the result is its bearing minus the own heading |
| `BoidSim.Boid.SteerHeading` | boids_algorithm.py:154-168 | the heading steered to before the edge check is the planned heading of the specification |
| `BoidSim.Boid.Update` | boids_algorithm.py:150-183 | the drawing position moves 10 px along the planned heading. The stored heading is that heading reflected at the new position. Only this boid's heading slot and drawing position change, and the position list is untouched |

## Left out

- Drawing: the sprite image, `rotate_boid`, the display, the event loop, the frame clock and the
  loop in the main block that creates 30 boids and calls `update` on each every frame. These are
  graphics-library work.
- `atan2`, `sin`, `cos` and the degree/radian constants: these are parameters of `Cohesion`,
  `Separation` and `Update`, with no properties assumed.
- `randint`: the start position, the start heading and the nudge are parameters, required to lie
  in the ranges `randint` returns.
- Floating point: headings, sums and drawing positions are exact reals, so rounding is not modelled.
  For example, float `%` can return 360.0 for a tiny negative operand.
- BoidSim.Boid.Update: the drawing position is kept as an exact real. pygame's `Rect` stores whole
  pixels, and the re-centring that `rotate_boid` applies to the rect each frame is not modelled.
- BoidSim.Boid.constructor: the re-centring of the rect by the initial `rotate_boid` call is not
  modelled. An index `i` beyond the list length, which raises `IndexError` in the source, is
  excluded by a precondition.
- BoidSim.Boid.Alignment and BoidSim.Boid.Cohesion require a non-empty neighbour list. The source divides by
  its length, and `update` only calls them after checking that it is non-empty.
- BoidSim.Boid.FindLocalBoids requires `myIndex` to be a valid index when the list is non-empty; the
  source raises `IndexError` otherwise.
- BoidSim.Boid.Separation and BoidSim.Boid.Update use the guarded repulsion described under Findings. Where the
  source would raise `ZeroDivisionError`, they add nothing for that neighbour instead.

## Findings

| source | as written | input that shows it | evidently intended | confidence | as-written member | corrected member |
|---|---|---|---|---|---|---|
| boids_algorithm.py:126-129 | each neighbour's displacement is divided by its squared length `mag_sq`, which is 0 when the neighbour stands on the boid's own position | two boids whose random start positions are both (5, 5): each is within view range of the other, and positions never change, so `separation` raises `ZeroDivisionError` on the first frame | a coincident neighbour contributes its raw displacement, i.e. nothing | not executed | `Steering.CoincidentStartBreaksSeparation` | `Steering.SeparationSumAgrees` |
