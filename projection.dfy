/**
 * Coordinate mapping: the bounding box grown over all systems from fixed
 * seed bounds, the uniform scale onto the 5000 x 5000 canvas, and the
 * projection of a galaxy (X, Z) position onto the canvas with Z inverted.
 */
module Projection {
  import opened Galaxy

  /** A canvas position. */
  datatype Point = Point(x: real, y: real)

  /** The galaxy-space box universeXMin..universeXMax by universeZMin..universeZMax. */
  datatype Bounds = Bounds(xMin: real, xMax: real, zMin: real, zMax: real)

  /** The bounds the box starts from before any system is seen. */
  const SeedBounds := Bounds(0.0, 336522971264518000.0, -484452845697854000.0, 472860102256057000.0)

  /** Side of the square the whole galaxy is fitted into. */
  const CanvasSize: real := 5000.0

  function Width(b: Bounds): real { b.xMax - b.xMin }

  function Depth(b: Bounds): real { b.zMax - b.zMin }

  predicate Contains(b: Bounds, x: real, z: real) {
    b.xMin <= x <= b.xMax && b.zMin <= z <= b.zMax
  }

  /** `outer` is nowhere tighter than `inner`. */
  predicate Encloses(outer: Bounds, inner: Bounds) {
    outer.xMin <= inner.xMin && inner.xMax <= outer.xMax &&
    outer.zMin <= inner.zMin && inner.zMax <= outer.zMax
  }

  /** One step of the bounds update: the four independent comparisons made per system. */
  function Include(b: Bounds, sys: StarSystem): (r: Bounds)
    ensures Contains(r, sys.actualX, sys.actualZ)
    ensures Encloses(r, b)
    ensures r.xMin == b.xMin || r.xMin == sys.actualX
    ensures r.xMax == b.xMax || r.xMax == sys.actualX
    ensures r.zMin == b.zMin || r.zMin == sys.actualZ
    ensures r.zMax == b.zMax || r.zMax == sys.actualZ
    ensures Contains(b, sys.actualX, sys.actualZ) ==> r == b
  {
    var xMin := if sys.actualX < b.xMin then sys.actualX else b.xMin;
    var xMax := if sys.actualX > b.xMax then sys.actualX else b.xMax;
    var zMin := if sys.actualZ < b.zMin then sys.actualZ else b.zMin;
    var zMax := if sys.actualZ > b.zMax then sys.actualZ else b.zMax;
    Bounds(xMin, xMax, zMin, zMax)
  }

  /** The bounds after visiting `systems` in order, starting from `seed`. */
  function Envelope(seed: Bounds, systems: seq<StarSystem>): (r: Bounds)
    ensures Encloses(r, seed)
  {
    if |systems| == 0 then seed
    else Include(Envelope(seed, systems[..|systems| - 1]), systems[|systems| - 1])
  }

  /** Visiting one more system includes it in the bounds of the systems before it. */
  lemma EnvelopeStep(seed: Bounds, systems: seq<StarSystem>, n: nat)
    requires n < |systems|
    ensures Envelope(seed, systems[..n + 1]) == Include(Envelope(seed, systems[..n]), systems[n])
  {
    assert systems[..n + 1][..n] == systems[..n];
  }

  /** After the scan every system lies inside the bounds. */
  lemma {:induction false} EnvelopeContainsAll(seed: Bounds, systems: seq<StarSystem>)
    ensures forall s :: s in systems ==> Contains(Envelope(seed, systems), s.actualX, s.actualZ)
  {
    if |systems| > 0 {
      var init := systems[..|systems| - 1];
      var last := systems[|systems| - 1];
      EnvelopeContainsAll(seed, init);
      assert systems == init + [last];
      forall s | s in systems
        ensures Contains(Envelope(seed, systems), s.actualX, s.actualZ)
      {
        if s != last {
          assert s in init;
        }
      }
    }
  }

  /** Each bound is either the seed's or the coordinate of some system: the box is no larger than needed. */
  lemma {:induction false} EnvelopeIsTight(seed: Bounds, systems: seq<StarSystem>)
    ensures var r := Envelope(seed, systems);
      && (r.xMin == seed.xMin || exists s :: s in systems && r.xMin == s.actualX)
      && (r.xMax == seed.xMax || exists s :: s in systems && r.xMax == s.actualX)
      && (r.zMin == seed.zMin || exists s :: s in systems && r.zMin == s.actualZ)
      && (r.zMax == seed.zMax || exists s :: s in systems && r.zMax == s.actualZ)
  {
    if |systems| > 0 {
      var init := systems[..|systems| - 1];
      EnvelopeIsTight(seed, init);
      assert systems == init + [systems[|systems| - 1]];
      assert forall s :: s in init ==> s in systems;
    }
  }

  /** Bounds that start from the seeds always have a positive width and depth. */
  lemma EnvelopeHasArea(systems: seq<StarSystem>)
    ensures Width(Envelope(SeedBounds, systems)) > 0.0
    ensures Depth(Envelope(SeedBounds, systems)) > 0.0
  {
  }

  /** Math.Min(5000 / width, 5000 / depth): the largest uniform scale that fits both axes. */
  function UniverseScale(width: real, depth: real): (s: real)
    requires width > 0.0 && depth > 0.0
    ensures s > 0.0
    ensures s * width <= CanvasSize && s * depth <= CanvasSize
    ensures s * width == CanvasSize || s * depth == CanvasSize
  {
    var xScale := CanvasSize / width;
    var zScale := CanvasSize / depth;
    if xScale < zScale then xScale else zScale
  }

  /** Galaxy (x, z) onto the canvas; z is flipped so that galaxy north is up. */
  function Project(x: real, z: real, b: Bounds, scale: real): Point {
    Point((x - b.xMin) * scale, (Depth(b) - (z - b.zMin)) * scale)
  }

  predicate InCanvas(p: Point) {
    0.0 <= p.x <= CanvasSize && 0.0 <= p.y <= CanvasSize
  }

  /** Scaling an offset within [0, extent] by a positive factor keeps it within [0, factor * extent]. */
  lemma ScaledOffset(d: real, extent: real, s: real)
    requires 0.0 <= d <= extent && s > 0.0
    ensures 0.0 <= d * s <= s * extent
  {
    assert (extent - d) * s >= 0.0;
    assert d * s + (extent - d) * s == extent * s;
  }

  /** Any point inside the bounds lands on the canvas under the fitted scale. */
  lemma ProjectionInCanvas(x: real, z: real, b: Bounds)
    requires Width(b) > 0.0 && Depth(b) > 0.0
    requires Contains(b, x, z)
    ensures InCanvas(Project(x, z, b, UniverseScale(Width(b), Depth(b))))
  {
    var w, d := Width(b), Depth(b);
    var s := UniverseScale(w, d);
    var dx, dy := x - b.xMin, d - (z - b.zMin);
    assert 0.0 <= dx <= w && 0.0 <= dy <= d;
    ScaledOffset(dx, w, s);
    ScaledOffset(dy, d, s);
    var p := Project(x, z, b, s);
    assert p.x == dx * s && p.y == dy * s;
  }

  /** Every system of the scanned universe projects onto the canvas. */
  lemma SystemsProjectIntoCanvas(systems: seq<StarSystem>)
    ensures var b := Envelope(SeedBounds, systems);
      forall s :: s in systems ==>
        InCanvas(Project(s.actualX, s.actualZ, b, UniverseScale(Width(b), Depth(b))))
  {
    var b := Envelope(SeedBounds, systems);
    EnvelopeContainsAll(SeedBounds, systems);
    forall s | s in systems
      ensures InCanvas(Project(s.actualX, s.actualZ, b, UniverseScale(Width(b), Depth(b))))
    {
      ProjectionInCanvas(s.actualX, s.actualZ, b);
    }
  }
}
