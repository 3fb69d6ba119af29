/**
  The particle background: fifty points that drift across the canvas, bounce
  off its edges, and are joined by a line when two of them are close.
  Coordinates are reals; the browser's floating-point rounding is not part of
  this model.
 */
module Particles {

  const ParticleCount := 50
  /** Pairs closer than this are joined; the model compares squared distances. */
  const LinkDistance := 150.0
  const LinkDistanceSquared := 22500.0
  const MaxLinkOpacity := 0.2

  /** A canvas dimension. The browser keeps it a whole number of pixels; the
      model needs only that it is not negative. */
  type Extent = r: real | 0.0 <= r

  function Abs(v: real): real {
    if v < 0.0 then -v else v
  }

  /** The six `Math.random()` results a new particle consumes, in the order the
      constructor draws them. */
  datatype Draw = Draw(x: real, y: real, vx: real, vy: real, radius: real, opacity: real)

  predicate IsUnit(r: real) {
    0.0 <= r < 1.0
  }

  predicate IsDraw(d: Draw) {
    IsUnit(d.x) && IsUnit(d.y) && IsUnit(d.vx) && IsUnit(d.vy) && IsUnit(d.radius) && IsUnit(d.opacity)
  }

  /** The velocity component after a move along one axis that ended at `pos`:
      negated when `pos` lies outside `[0, dim]`, kept otherwise. The speed
      along the axis never changes. */
  function Reflect(v: real, pos: real, dim: real): (r: real)
    ensures Abs(r) == Abs(v)
    ensures (pos < 0.0 || pos > dim) ==> r == -v
    ensures 0.0 <= pos <= dim ==> r == v
  {
    if pos < 0.0 || pos > dim then -v else v
  }

  /** Position and velocity of a particle, the part of its state that moves. */
  datatype Motion = Motion(x: real, y: real, vx: real, vy: real)

  /** One `update()`: move by the velocity, then reflect each component whose
      new coordinate left the canvas. */
  function Advance(m: Motion, width: real, height: real): Motion {
    var x, y := m.x + m.vx, m.y + m.vy;
    Motion(x, y, Reflect(m.vx, x, width), Reflect(m.vy, y, height))
  }

  /** Along one axis: either inside `[0, dim]`, or one step away from coming
      back inside. */
  predicate InBand(pos: real, v: real, dim: real) {
    0.0 <= pos <= dim || 0.0 <= pos + v <= dim
  }

  predicate MotionInBand(m: Motion, width: real, height: real) {
    InBand(m.x, m.vx, width) && InBand(m.y, m.vy, height)
  }

  /** As long as the canvas keeps its size, an update keeps a particle in the
      band. */
  lemma AdvanceKeepsBand(m: Motion, width: real, height: real)
    requires MotionInBand(m, width, height)
    ensures MotionInBand(Advance(m, width, height), width, height)
  {
  }

  /** A particle in the band overshoots the canvas by at most its speed. */
  lemma BandBounds(pos: real, v: real, dim: real)
    requires InBand(pos, v, dim)
    ensures -Abs(v) <= pos <= dim + Abs(v)
  {
  }

  /** The motion after `frames` updates against a canvas that keeps its size. */
  function Frames(m: Motion, width: real, height: real, frames: nat): Motion {
    if frames == 0 then m else Advance(Frames(m, width, height, frames - 1), width, height)
  }

  /** However many frames pass, a particle that starts in the band stays in it,
      keeps its speed, and so never strays farther from the canvas than its
      initial speed along each axis. */
  lemma {:induction false} FramesStayNearCanvas(m: Motion, width: real, height: real, frames: nat)
    requires MotionInBand(m, width, height)
    ensures var f := Frames(m, width, height, frames);
      && MotionInBand(f, width, height)
      && Abs(f.vx) == Abs(m.vx) && Abs(f.vy) == Abs(m.vy)
      && -Abs(m.vx) <= f.x <= width + Abs(m.vx)
      && -Abs(m.vy) <= f.y <= height + Abs(m.vy)
  {
    if frames > 0 {
      var prev := Frames(m, width, height, frames - 1);
      FramesStayNearCanvas(m, width, height, frames - 1);
      AdvanceKeepsBand(prev, width, height);
      AdvanceKeepsSpeed(prev, width, height);
      var f := Advance(prev, width, height);
      BandBounds(f.x, f.vx, width);
      BandBounds(f.y, f.vy, height);
    } else {
      BandBounds(m.x, m.vx, width);
      BandBounds(m.y, m.vy, height);
    }
  }

  /** After the canvas has shrunk, a particle that is beyond its left or right
      edge and would still be beyond that edge after its next move never comes
      back, whatever its vertical motion: it flips between its position and
      the next one, on the same side, with the horizontal velocity flipping
      with it. The vertical axis behaves the same way, as `Advance` treats it
      with the same `Reflect`. */
  lemma {:induction false} StrandedBeyondEdge(m: Motion, width: Extent, height: Extent, frames: nat)
    requires (m.x > width && m.x + m.vx > width) || (m.x < 0.0 && m.x + m.vx < 0.0)
    ensures var f := Frames(m, width, height, frames);
      && (if frames % 2 == 0 then f.x == m.x && f.vx == m.vx
          else f.x == m.x + m.vx && f.vx == -m.vx)
      && (if m.x > width then f.x > width else f.x < 0.0)
  {
    if frames > 0 {
      StrandedBeyondEdge(m, width, height, frames - 1);
      var prev := Frames(m, width, height, frames - 1);
      var f := Advance(prev, width, height);
      assert Frames(m, width, height, frames) == f;
      if (frames - 1) % 2 == 0 {
        assert frames % 2 == 1;
        assert f.x == m.x + m.vx && f.vx == Reflect(m.vx, m.x + m.vx, width) == -m.vx;
      } else {
        assert frames % 2 == 0;
        assert f.x == m.x + m.vx + -m.vx == m.x;
        assert f.vx == Reflect(-m.vx, m.x, width) == m.vx;
      }
    }
  }

  /** A particle's velocity changes only in sign. */
  lemma AdvanceKeepsSpeed(m: Motion, width: real, height: real)
    ensures Abs(Advance(m, width, height).vx) == Abs(m.vx)
    ensures Abs(Advance(m, width, height).vy) == Abs(m.vy)
  {
  }

  /** `Math.random() * dim` lies on `[0, dim]`. */
  lemma ScaleWithin(r: real, dim: real)
    requires IsUnit(r) && 0.0 <= dim
    ensures 0.0 <= r * dim <= dim
  {
    assert (1.0 - r) * dim >= 0.0;
  }

  /** The ranges of the constructor's formulas for draws in `[0, 1)`. */
  lemma SpawnRanges(width: real, height: real, d: Draw)
    requires IsDraw(d) && 0.0 <= width && 0.0 <= height
    ensures 0.0 <= d.x * width <= width && 0.0 <= d.y * height <= height
    ensures -0.5 <= (d.vx - 0.5) * 1.0 < 0.5 && -0.5 <= (d.vy - 0.5) * 1.0 < 0.5
    ensures 0.0 <= d.radius * 1.5 < 1.5 && 0.2 <= d.opacity * 0.5 + 0.2 < 0.7
  {
    ScaleWithin(d.x, width);
    ScaleWithin(d.y, height);
  }

  class Particle {
    var x: real
    var y: real
    var vx: real
    var vy: real
    var radius: real
    var opacity: real

    function State(): Motion
      reads this
    {
      Motion(x, y, vx, vy)
    }

    /** The state the constructor gives a particle from the draws `d`. */
    predicate SpawnedFrom(width: Extent, height: Extent, d: Draw)
      reads this
    {
      && x == d.x * width && y == d.y * height
      && vx == (d.vx - 0.5) * 1.0 && vy == (d.vy - 0.5) * 1.0
      && radius == d.radius * 1.5 && opacity == d.opacity * 0.5 + 0.2
    }

    /** A new particle sits on the canvas, moves at most half a unit per frame
        along each axis, and has a radius in `[0, 1.5)` and an opacity in
        `[0.2, 0.7)`. */
    constructor (width: Extent, height: Extent, d: Draw)
      requires IsDraw(d)
      ensures SpawnedFrom(width, height, d)
      ensures 0.0 <= x <= width
      ensures 0.0 <= y <= height
      ensures -0.5 <= vx < 0.5 && -0.5 <= vy < 0.5
      ensures 0.0 <= radius < 1.5 && 0.2 <= opacity < 0.7
      ensures MotionInBand(State(), width, height)
    {
      x := d.x * width;
      y := d.y * height;
      vx := (d.vx - 0.5) * 1.0;
      vy := (d.vy - 0.5) * 1.0;
      radius := d.radius * 1.5;
      opacity := d.opacity * 0.5 + 0.2;
      new;
      SpawnRanges(width, height, d);
    }

    /** `update()` against a canvas of the given size. */
    method Update(width: Extent, height: Extent)
      modifies this
      ensures x == old(x) + old(vx) && y == old(y) + old(vy)
      ensures vx == Reflect(old(vx), x, width)
      ensures vy == Reflect(old(vy), y, height)
      ensures State() == Advance(old(State()), width, height)
      ensures radius == old(radius) && opacity == old(opacity)
    {
      x := x + vx;
      y := y + vy;
      if x < 0.0 || x > width {
        vx := vx * -1.0;
      }
      if y < 0.0 || y > height {
        vy := vy * -1.0;
      }
    }
  }

  predicate Distinct(particles: seq<Particle>) {
    forall i, j :: 0 <= i < j < |particles| ==> particles[i] != particles[j]
  }

  /** The `push` loop at start-up: one new particle per draw. */
  method CreateParticles(width: Extent, height: Extent, draws: seq<Draw>) returns (particles: seq<Particle>)
    requires |draws| == ParticleCount
    requires forall k :: 0 <= k < |draws| ==> IsDraw(draws[k])
    ensures |particles| == ParticleCount && Distinct(particles)
    ensures forall k :: 0 <= k < |particles| ==> fresh(particles[k])
    ensures forall k :: 0 <= k < |particles| ==> particles[k].SpawnedFrom(width, height, draws[k])
    ensures forall k :: 0 <= k < |particles| ==>
              MotionInBand(particles[k].State(), width, height)
  {
    particles := [];
    var i := 0;
    while i < ParticleCount
      invariant 0 <= i <= ParticleCount && |particles| == i
      invariant Distinct(particles)
      invariant forall k :: 0 <= k < i ==> fresh(particles[k])
      invariant forall k :: 0 <= k < i ==> particles[k].SpawnedFrom(width, height, draws[k])
      invariant forall k :: 0 <= k < i ==>
                  MotionInBand(particles[k].State(), width, height)
    {
      var p := new Particle(width, height, draws[i]);
      particles := particles + [p];
      i := i + 1;
    }
  }

  /** The `forEach` of one animation frame, without the drawing: every particle
      takes one update step, and nothing else about it changes. */
  method UpdateAll(particles: seq<Particle>, width: Extent, height: Extent)
    requires Distinct(particles)
    modifies set p | p in particles
    ensures forall k :: 0 <= k < |particles| ==>
              particles[k].State() == Advance(old(particles[k].State()), width, height)
    ensures forall k :: 0 <= k < |particles| ==>
              particles[k].radius == old(particles[k].radius) && particles[k].opacity == old(particles[k].opacity)
  {
    var i := 0;
    while i < |particles|
      invariant 0 <= i <= |particles|
      invariant forall k :: 0 <= k < i ==>
                  particles[k].State() == Advance(old(particles[k].State()), width, height)
      invariant forall k :: i <= k < |particles| ==> particles[k].State() == old(particles[k].State())
      invariant forall k :: 0 <= k < |particles| ==>
                  particles[k].radius == old(particles[k].radius) && particles[k].opacity == old(particles[k].opacity)
    {
      particles[i].Update(width, height);
      i := i + 1;
    }
  }

  // ---------------------------------------------------------------------------
  // drawConnections

  datatype Point = Point(x: real, y: real)

  /** The particles' positions, read at the start of the scan. */
  function Positions(particles: seq<Particle>): (r: seq<Point>)
    reads set p | p in particles
    ensures |r| == |particles|
    ensures forall k :: 0 <= k < |r| ==> r[k] == Point(particles[k].x, particles[k].y)
  {
    if particles == [] then []
    else Positions(particles[..|particles| - 1]) + [Point(particles[|particles| - 1].x, particles[|particles| - 1].y)]
  }

  /** `dx * dx + dy * dy`, the square of the distance `Math.sqrt` computes. */
  function DistanceSquared(a: Point, b: Point): real {
    var dx, dy := a.x - b.x, a.y - b.y;
    dx * dx + dy * dy
  }

  /** A line `drawConnections` strokes between particles `i` and `j`. */
  datatype Line = Line(i: int, j: int, distanceSquared: real)

  /** The pairs `(i, j)` visited by the outer loop's iterations `row` and the
      inner loop's first `count` steps in iteration `row`. */
  function Row(row: int, count: nat): (r: seq<(int, int)>)
    ensures |r| == count
    ensures forall k :: 0 <= k < count ==> r[k] == (row, row + 1 + k)
  {
    if count == 0 then [] else Row(row, count - 1) + [(row, row + count)]
  }

  /** The pairs the nested loops visit in the outer iterations before `i`. */
  function PairsBefore(i: nat, n: nat): seq<(int, int)>
    requires i <= n
  {
    if i == 0 then [] else PairsBefore(i - 1, n) + Row(i - 1, n - i)
  }

  /** Every pair the scan visits is `(i, j)` with `i < j < n`, and every such
      pair with `i` below the current row has been visited. */
  lemma {:induction false} PairsBeforeMembers(i: nat, n: nat, a: int, b: int)
    requires i <= n
    ensures (a, b) in PairsBefore(i, n) <==> 0 <= a < i && a < b < n
  {
    if i > 0 {
      PairsBeforeMembers(i - 1, n, a, b);
      var row := Row(i - 1, n - i);
      if a == i - 1 && a < b < n {
        assert row[b - i] == (a, b);
      }
    }
  }

  /** The scan visits pairs in strictly increasing lexicographic order, so it
      never visits a pair twice. */
  lemma {:induction false} PairsBeforeIncreasing(i: nat, n: nat)
    requires i <= n
    ensures forall p, q :: 0 <= p < q < |PairsBefore(i, n)| ==>
              PairsBefore(i, n)[p].0 < PairsBefore(i, n)[q].0
              || (PairsBefore(i, n)[p].0 == PairsBefore(i, n)[q].0 && PairsBefore(i, n)[p].1 < PairsBefore(i, n)[q].1)
  {
    if i > 0 {
      PairsBeforeIncreasing(i - 1, n);
      var prev, row := PairsBefore(i - 1, n), Row(i - 1, n - i);
      var all := PairsBefore(i, n);
      assert all == prev + row;
      forall p, q | 0 <= p < q < |all|
        ensures all[p].0 < all[q].0 || (all[p].0 == all[q].0 && all[p].1 < all[q].1)
      {
        if q < |prev| {
          assert all[p] == prev[p] && all[q] == prev[q];
        } else if p < |prev| {
          assert all[p] == prev[p] && prev[p] in prev;
          PairsBeforeMembers(i - 1, n, prev[p].0, prev[p].1);
          assert all[q] == row[q - |prev|];
        } else {
          assert all[p] == row[p - |prev|] && all[q] == row[q - |prev|];
        }
      }
    }
  }

  /** The count of pairs visited, doubled: twice `n*(n-1)/2` when `i == n`. */
  lemma {:induction false} PairsBeforeLength(i: nat, n: nat)
    requires i <= n
    ensures 2 * |PairsBefore(i, n)| == 2 * i * n - i * (i + 1)
  {
    if i > 0 {
      PairsBeforeLength(i - 1, n);
      assert |PairsBefore(i, n)| == |PairsBefore(i - 1, n)| + (n - i);
      RowCountStep(i, n, |PairsBefore(i - 1, n)|);
    }
  }

  /** The arithmetic of one more row: `n - i` more checks. */
  lemma RowCountStep(i: int, n: int, before: int)
    requires 2 * before == 2 * (i - 1) * n - (i - 1) * i
    ensures 2 * (before + (n - i)) == 2 * i * n - i * (i + 1)
  {
    assert 2 * (i - 1) * n == 2 * i * n - 2 * n;
    assert (i - 1) * i == i * i - i;
    assert i * (i + 1) == i * i + i;
  }

  /** The scan of `n` particles makes `n*(n-1)/2` distance checks, one for each
      pair `i < j`, and never pairs a particle with itself. */
  lemma AllPairsScanned(n: nat)
    ensures |PairsBefore(n, n)| == n * (n - 1) / 2
    ensures forall a, b :: (a, b) in PairsBefore(n, n) <==> 0 <= a < b < n
    ensures forall p :: p in PairsBefore(n, n) ==> p.0 != p.1
  {
    PairsBeforeLength(n, n);
    forall a, b ensures (a, b) in PairsBefore(n, n) <==> 0 <= a < b < n {
      PairsBeforeMembers(n, n, a, b);
    }
  }

  /** The line, if any, drawn for the pair `(i, j)`: one when both are
      particles and their squared distance is below 150². */
  function LineFor(points: seq<Point>, i: int, j: int): seq<Line> {
    if 0 <= i < |points| && 0 <= j < |points| then
      var d := DistanceSquared(points[i], points[j]);
      if d < LinkDistanceSquared then [Line(i, j, d)] else []
    else
      []
  }

  /** The lines drawn for the visited `pairs`, in visiting order. */
  function LinesFor(points: seq<Point>, pairs: seq<(int, int)>): seq<Line> {
    if pairs == [] then []
    else
      var (i, j) := pairs[|pairs| - 1];
      LinesFor(points, pairs[..|pairs| - 1]) + LineFor(points, i, j)
  }

  /** Visiting one more pair appends its line, if any, to those already drawn. */
  lemma LinesForSnoc(points: seq<Point>, pairs: seq<(int, int)>, i: int, j: int)
    ensures LinesFor(points, pairs + [(i, j)]) == LinesFor(points, pairs) + LineFor(points, i, j)
  {
    assert (pairs + [(i, j)])[..|pairs|] == pairs;
  }

  /** A line is drawn for a visited pair of particles exactly when the pair is
      close enough, and it records that pair's squared distance. */
  lemma {:induction false} LinesForMembers(points: seq<Point>, pairs: seq<(int, int)>, line: Line)
    ensures line in LinesFor(points, pairs) <==>
              && (line.i, line.j) in pairs
              && 0 <= line.i < |points| && 0 <= line.j < |points|
              && line.distanceSquared == DistanceSquared(points[line.i], points[line.j])
              && line.distanceSquared < LinkDistanceSquared
  {
    if pairs != [] {
      var init, last := pairs[..|pairs| - 1], pairs[|pairs| - 1];
      LinesForMembers(points, init, line);
      assert pairs == init + [last];
      assert LinesFor(points, pairs) == LinesFor(points, init) + LineFor(points, last.0, last.1);
      if line in LineFor(points, last.0, last.1) {
        assert (line.i, line.j) == last;
      }
      if (line.i, line.j) == last && 0 <= line.i < |points| && 0 <= line.j < |points|
         && line.distanceSquared == DistanceSquared(points[line.i], points[line.j])
         && line.distanceSquared < LinkDistanceSquared {
        assert LineFor(points, last.0, last.1) == [line];
      }
    }
  }

  /** `drawConnections`: the outer loop over `i`, every row scanned by
      `ScanRow`. The visited pairs and the lines drawn are returned in
      order. */
  method DrawConnections(particles: seq<Particle>) returns (ghost visited: seq<(int, int)>, lines: seq<Line>)
    ensures visited == PairsBefore(|particles|, |particles|)
    ensures lines == LinesFor(Positions(particles), PairsBefore(|particles|, |particles|))
  {
    var n := |particles|;
    visited, lines := [], [];
    var i := 0;
    while i < n
      invariant 0 <= i <= n
      invariant visited == PairsBefore(i, n)
      invariant lines == LinesFor(Positions(particles), visited)
    {
      visited, lines := ScanRow(particles, i, visited, lines);
      i := i + 1;
    }
  }

  /** The inner loop of `drawConnections` for row `i`: particle `i` against
      every later particle `j`, a line appended for each close one. */
  method ScanRow(particles: seq<Particle>, i: nat, ghost visited0: seq<(int, int)>, lines0: seq<Line>)
    returns (ghost visited: seq<(int, int)>, lines: seq<Line>)
    requires i < |particles|
    requires lines0 == LinesFor(Positions(particles), visited0)
    ensures visited == visited0 + Row(i, |particles| - i - 1)
    ensures lines == LinesFor(Positions(particles), visited0 + Row(i, |particles| - i - 1))
  {
    var n := |particles|;
    ghost var points := Positions(particles);
    visited, lines := visited0, lines0;
    var j := i + 1;
    while j < n
      invariant i + 1 <= j <= n
      invariant visited == visited0 + Row(i, j - i - 1)
      invariant lines == LinesFor(points, visited)
    {
      var a, b := Point(particles[i].x, particles[i].y), Point(particles[j].x, particles[j].y);
      assert a == points[i] && b == points[j];
      var d := DistanceSquared(a, b);
      ScanStep(points, visited0, i, j, visited);
      visited := visited + [(i, j)];
      if d < LinkDistanceSquared {
        lines := lines + [Line(i, j, d)];
      }
      j := j + 1;
    }
  }

  /** One step of the inner loop: the pair `(i, j)` extends the row, and its
      line, if any, extends the lines drawn. */
  lemma ScanStep(points: seq<Point>, visited0: seq<(int, int)>, i: int, j: int, visited: seq<(int, int)>)
    requires i < j
    requires visited == visited0 + Row(i, j - i - 1)
    ensures visited + [(i, j)] == visited0 + Row(i, j - i)
    ensures LinesFor(points, visited + [(i, j)]) == LinesFor(points, visited) + LineFor(points, i, j)
  {
    assert Row(i, j - i) == Row(i, j - i - 1) + [(i, j)];
    LinesForSnoc(points, visited, i, j);
  }

  /** The opacity of a line between particles at distance `d`: `0.2` at
      distance zero, falling linearly towards zero at the threshold. */
  function LineOpacity(d: real): (o: real)
    requires 0.0 <= d < LinkDistance
    ensures 0.0 < o <= MaxLinkOpacity
  {
    MaxLinkOpacity * (1.0 - d / LinkDistance)
  }

  /** A farther pair never gets a more opaque line. */
  lemma LineOpacityNonIncreasing(d1: real, d2: real)
    requires 0.0 <= d1 <= d2 < LinkDistance
    ensures LineOpacity(d2) <= LineOpacity(d1)
  {
  }

  /** Comparing squared distances with 150² is comparing distances with 150. */
  lemma CloseIffSquaredClose(d: real, dsq: real)
    requires 0.0 <= d && d * d == dsq
    ensures d < LinkDistance <==> dsq < LinkDistanceSquared
  {
    if d < LinkDistance {
      assert d * d <= d * LinkDistance;
      assert d * LinkDistance < LinkDistance * LinkDistance;
    } else {
      assert d * d >= d * LinkDistance;
      assert d * LinkDistance >= LinkDistance * LinkDistance;
    }
  }

  /** Every drawn line has the distance of a close pair, so its opacity lies in
      `(0, 0.2]`. */
  lemma DrawnLineOpacity(points: seq<Point>, pairs: seq<(int, int)>, line: Line, d: real)
    requires line in LinesFor(points, pairs)
    requires 0.0 <= d && d * d == line.distanceSquared
    ensures d < LinkDistance && 0.0 < LineOpacity(d) <= MaxLinkOpacity
  {
    LinesForMembers(points, pairs, line);
    CloseIffSquaredClose(d, line.distanceSquared);
  }
}
