/** The arithmetic of the grass vertex shader: for one vertex of the blade mesh and
    one instance offset it computes the displaced world position and the two
    varyings (height fraction h and height diff) handed to the fragment shader.
    The noise texture, sin and cos are parameters whose values are not modelled;
    where a property needs cos(0) = 1 it says so as a hypothesis. */
module BladeVertex {
  import opened Glsl
  import GrassLayout
  import opened RealFacts

  /** The red channel of the noise texture at a texture coordinate in [0, 1)^2. */
  type NoiseField = (real, real) -> real

  /** The GPU's sin and cos. */
  datatype Trig = Trig(sin: real -> real, cos: real -> real)

  /** The uniforms of the grass program. */
  datatype Uniforms = Uniforms(
    area: Vec2,
    moved: Vec2,
    time: real,
    height: real,
    planeNoiseScale: real,
    planeNoiseAmplitude: real,
    minorHeightNoiseScale: real,
    minorHeightNoiseAmplitude: real,
    majorHeightNoiseScale: real,
    majorHeightNoiseAmplitude: real,
    windNoiseScale: real,
    windStrength: real)

  datatype VertexOut = VertexOut(pos: Vec3, h: real, hDiff: real)

  /** Width and depth of the blade box, and the ratio of its height to them. */
  const BladeSize: real := 0.1
  const HeightRatio: real := 2.0

  /** The uniform values createGrass gives the program: the shader's divisions by
      height and by majorHeightNoiseAmplitude are then defined. */
  function GrassUniforms(area: Vec2, time: real): (u: Uniforms)
    ensures u.height > 0.0 && u.majorHeightNoiseAmplitude > 0.0
    ensures u.area == area && u.time == time && u.moved == Vec2(0.0, 0.0)
  {
    Uniforms(area, Vec2(0.0, 0.0), time, BladeSize * HeightRatio,
             0.2, 2.0, 10.0, 0.6, 0.2, 2.0, 0.2, 5.0)
  }

  /** True when every texel of the field lies in [0, 1], as for a normalised texture. */
  ghost predicate UnitField(field: NoiseField) {
    forall s, t :: 0.0 <= field(s, t) <= 1.0
  }

  /** The red channel of the noise texture at a point of the unit square. */
  function Texel(field: NoiseField, uv: Vec2): real {
    field(uv.x, uv.y)
  }

  /** sampleNoise: the texel at fract(coord * scale), times amplitude. */
  function SampleNoise(field: NoiseField, coord: Vec2, scale: real, amplitude: real): (r: real)
    ensures scale == 0.0 ==> r == field(0.0, 0.0) * amplitude
    ensures UnitField(field) && 0.0 <= amplitude ==> 0.0 <= r <= amplitude
  {
    var texel := Texel(field, Fract2(Scale2(coord, scale)));
    assert scale == 0.0 ==> texel == field(0.0, 0.0) by {
      if scale == 0.0 { ScaleByZero(coord); }
    }
    assert UnitField(field) && 0.0 <= amplitude ==> texel * amplitude <= amplitude by {
      if UnitField(field) && 0.0 <= amplitude { MulNonneg(1.0 - texel, amplitude); }
    }
    texel * amplitude
  }

  /** The noise tiles: moving the coordinate by whole periods 1/scale does not change
      the sample. */
  lemma SampleNoiseTiles(field: NoiseField, c1: Vec2, c2: Vec2, scale: real, amplitude: real, n: int, m: int)
    requires (c2.x - c1.x) * scale == n as real && (c2.y - c1.y) * scale == m as real
    ensures SampleNoise(field, c1, scale, amplitude) == SampleNoise(field, c2, scale, amplitude)
  {
    Fract2Tiles(c1, c2, scale, n, m);
  }

  /** h: the vertex's height fraction, 0 at the bottom of the blade and 1 at its top. */
  function HeightFraction(y: real, height: real): (h: real)
    requires height != 0.0
    ensures y == -height / 2.0 ==> h == 0.0
    ensures y == height / 2.0 ==> h == 1.0
    ensures 0.0 < height ==> (0.0 <= h <= 1.0 <==> -height / 2.0 <= y <= height / 2.0)
  {
    assert 0.0 < height ==> (0.0 <= (y + height / 2.0) / height <==> 0.0 <= y + height / 2.0) by {
      if 0.0 < height { DivSign(y + height / 2.0, height); }
    }
    assert 0.0 < height ==> ((y + height / 2.0) / height <= 1.0 <==> y + height / 2.0 <= height) by {
      if 0.0 < height { DivLeIff(y + height / 2.0, height, height); DivSelf(height); }
    }
    assert y == height / 2.0 ==> (y + height / 2.0) / height == 1.0 by {
      if y == height / 2.0 { DivSelf(height); }
    }
    (y + height / 2.0) / height
  }


  /** True when sin takes its values in [-1, 1], as the GPU's sin does. */
  ghost predicate BoundedSin(trig: Trig) {
    forall t :: -1.0 <= trig.sin(t) <= 1.0
  }

  /** rand: a per-instance pseudo-random value, sin(offset.x * 100000), so in [-1, 1]. */
  function Rand(trig: Trig, offset: Vec2): (r: real)
    ensures BoundedSin(trig) ==> -1.0 <= r <= 1.0
  {
    trig.sin(offset.x * 100000.0)
  }

  /** shuffle: per-instance jitter, the noise at sin(offset * 100) blended into [-2, 2]. */
  function Shuffle(field: NoiseField, trig: Trig, offset: Vec2): (r: real)
    ensures UnitField(field) ==> -2.0 <= r <= 2.0
  {
    var coord := Vec2(trig.sin(offset.x * 100.0), trig.sin(offset.y * 100.0));
    Mix(-2.0, 2.0, SampleNoise(field, coord, 1.0, 1.0))
  }

  /** The plane noise lifts the whole blade by up to planeNoiseAmplitude, read at the
      offset shifted by `moved`. */
  function PlaneNoise(field: NoiseField, u: Uniforms, offset: Vec2): (r: real)
    ensures UnitField(field) && 0.0 <= u.planeNoiseAmplitude ==> 0.0 <= r <= u.planeNoiseAmplitude
    ensures u.moved == Vec2(0.0, 0.0) ==> r == SampleNoise(field, offset, u.planeNoiseScale, u.planeNoiseAmplitude)
  {
    SampleNoise(field, Vec2(offset.x + u.moved.x, offset.y + u.moved.y), u.planeNoiseScale, u.planeNoiseAmplitude)
  }

  /** The fine height noise, in [0, minorHeightNoiseAmplitude] for a unit texture. */
  function MinorHeightNoise(field: NoiseField, u: Uniforms, offset: Vec2): (r: real)
    ensures UnitField(field) && 0.0 <= u.minorHeightNoiseAmplitude ==> 0.0 <= r <= u.minorHeightNoiseAmplitude
  {
    SampleNoise(field, offset, u.minorHeightNoiseScale, u.minorHeightNoiseAmplitude)
  }

  /** The coarse height noise, in [0, majorHeightNoiseAmplitude] for a unit texture. */
  function MajorHeightNoise(field: NoiseField, u: Uniforms, offset: Vec2): (r: real)
    ensures UnitField(field) && 0.0 <= u.majorHeightNoiseAmplitude ==> 0.0 <= r <= u.majorHeightNoiseAmplitude
  {
    SampleNoise(field, offset, u.majorHeightNoiseScale, u.majorHeightNoiseAmplitude)
  }

  /** The wind sample scrolls with time: it is read at offset + time * 0.5, with
      amplitude 1, so it lies in [0, 1] for a unit texture. */
  function WindNoise(field: NoiseField, u: Uniforms, offset: Vec2): (r: real)
    ensures UnitField(field) ==> 0.0 <= r <= 1.0
    ensures u.windNoiseScale == 0.0 ==> r == field(0.0, 0.0)
  {
    SampleNoise(field, Vec2(offset.x + u.time * 0.5, offset.y + u.time * 0.5), u.windNoiseScale, 1.0)
  }

  /** curvedAdjust: the wind bend (1 - (cos(h) + 1) / 2) * windNoise * windStrength,
      zero at the root when cos(0) = 1. */
  function CurvedAdjust(trig: Trig, h: real, windNoise: real, windStrength: real): (r: real)
    ensures h == 0.0 && trig.cos(0.0) == 1.0 ==> r == 0.0
    ensures -1.0 <= trig.cos(h) <= 1.0 && 0.0 <= windNoise * windStrength ==>
              0.0 <= r <= windNoise * windStrength
  {
    var bend := 1.0 - (trig.cos(h) + 1.0) / 2.0;
    assert -1.0 <= trig.cos(h) <= 1.0 && 0.0 <= windNoise * windStrength ==>
             0.0 <= bend * (windNoise * windStrength) <= windNoise * windStrength by {
      if -1.0 <= trig.cos(h) <= 1.0 && 0.0 <= windNoise * windStrength {
        MulNonneg(bend, windNoise * windStrength);
        MulNonneg(1.0 - bend, windNoise * windStrength);
      }
    }
    bend * windNoise * windStrength
  }

  /** heightPinch = mix(1.0, 0.01, h): the taper of the blade's cross-section, full
      width at the root and a hundredth of it at the tip. */
  function HeightPinch(h: real): (r: real)
    ensures h == 0.0 ==> r == 1.0
    ensures h == 1.0 ==> r == 0.01
    ensures 0.0 <= h <= 1.0 ==> 0.01 <= r <= 1.0
  {
    Mix(1.0, 0.01, h)
  }

  /** The taper narrows steadily: a higher vertex is never wider. */
  lemma HeightPinchNonIncreasing(h1: real, h2: real)
    requires h1 <= h2
    ensures HeightPinch(h2) <= HeightPinch(h1)
  {
    MixMonotone(1.0, 0.01, h1, h2);
  }

  /** gridPosition = (offset - 0.5) * area: the unit grid mapped onto the world-space
      area centred on the origin. */
  function GridPosition(offset: Vec2, area: Vec2): (p: Vec2)
    ensures 0.0 <= offset.x < 1.0 && 0.0 < area.x ==> -area.x / 2.0 <= p.x < area.x / 2.0
    ensures 0.0 <= offset.y < 1.0 && 0.0 < area.y ==> -area.y / 2.0 <= p.y < area.y / 2.0
  {
    CentredBounds(offset.x, area.x);
    CentredBounds(offset.y, area.y);
    Vec2(Centred(offset.x, area.x), Centred(offset.y, area.y))
  }

  /** One component of gridPosition: (t - 0.5) * a. */
  function Centred(t: real, a: real): real {
    (t - 0.5) * a
  }

  /** A unit-interval coordinate centred and scaled by a positive extent a lands in [-a/2, a/2). */
  lemma CentredBounds(t: real, a: real)
    ensures 0.0 <= t < 1.0 && 0.0 < a ==> -a / 2.0 <= Centred(t, a) < a / 2.0
  {
    if 0.0 <= t < 1.0 && 0.0 < a {
      MulNonneg(t, a);
      MulPositive(1.0 - t, a);
      assert (t - 0.5) * a == t * a - a / 2.0;
      assert (1.0 - t) * a == a - t * a;
    }
  }

  /** Every offset pair the grass layout produces lands inside the field's area. */
  lemma LayoutInsideArea(rows: nat, columns: nat, i: nat, ii: nat, area: Vec2)
    requires i < rows && ii < columns && 0.0 < area.x && 0.0 < area.y
    ensures var c := GrassLayout.CellIndex(columns, i, ii) * 2;
            c + 1 < |GrassLayout.Offsets(rows, columns)| &&
            var p := GridPosition(Vec2(GrassLayout.Offsets(rows, columns)[c], GrassLayout.Offsets(rows, columns)[c + 1]), area);
            -area.x / 2.0 <= p.x < area.x / 2.0 && -area.y / 2.0 <= p.y < area.y / 2.0
  {
    var c := GrassLayout.CellIndex(columns, i, ii) * 2;
    GrassLayout.OffsetAtCell(rows, columns, i, ii);
    GrassLayout.OffsetsInUnitInterval(rows, columns, c);
    GrassLayout.OffsetsInUnitInterval(rows, columns, c + 1);
  }

  /** scaledY: the height noise and the vertex's own height, scaled by h, so the root
      receives none of it and the tip all of it. */
  function ScaledY(y: real, h: real, minorHeightNoise: real, majorHeightNoise: real): (r: real)
    ensures h == 0.0 ==> r == 0.0
    ensures h == 1.0 ==> r == y + minorHeightNoise + majorHeightNoise
  {
    y * h + minorHeightNoise * h + majorHeightNoise * h
  }

  /** The displaced world position of one blade vertex of one instance. Both horizontal
      components receive the same jitter shuffle and the same wind bend; they differ
      only by the grid and local coordinates and by rand * 0.2, which x alone gets. */
  function BladePosition(field: NoiseField, trig: Trig, u: Uniforms, position: Vec3, offset: Vec2): (p: Vec3)
    requires u.height != 0.0
    ensures var grid := GridPosition(offset, u.area);
            p.x - p.z == (grid.x - grid.y) + (position.x - position.z) * HeightPinch(HeightFraction(position.y, u.height))
                         - Rand(trig, offset) * 0.2
  {
    var h := HeightFraction(position.y, u.height);
    var curved := CurvedAdjust(trig, h, WindNoise(field, u, offset), u.windStrength);
    var grid := GridPosition(offset, u.area);
    var pinch := HeightPinch(h);
    var shuffle := Shuffle(field, trig, offset);
    assert (position.x - position.z) * pinch == position.x * pinch - position.z * pinch;
    var adjustedX := (grid.x + shuffle) + position.x * pinch - (curved + Rand(trig, offset) * 0.2);
    var adjustedZ := (grid.y + shuffle) + position.z * pinch - curved;
    var scaledY := ScaledY(position.y, h, MinorHeightNoise(field, u, offset), MajorHeightNoise(field, u, offset));
    Vec3(adjustedX, position.y + scaledY + PlaneNoise(field, u, offset), adjustedZ)
  }

  /** hDiff = majorHeightNoise / majorHeightNoiseAmplitude. */
  function HeightDiff(field: NoiseField, u: Uniforms, offset: Vec2): (d: real)
    requires u.majorHeightNoiseAmplitude != 0.0
    ensures UnitField(field) && 0.0 < u.majorHeightNoiseAmplitude ==> 0.0 <= d <= 1.0
  {
    var m := MajorHeightNoise(field, u, offset);
    assert UnitField(field) && 0.0 < u.majorHeightNoiseAmplitude ==> 0.0 <= m / u.majorHeightNoiseAmplitude <= 1.0 by {
      if UnitField(field) && 0.0 < u.majorHeightNoiseAmplitude {
        DivSign(m, u.majorHeightNoiseAmplitude);
        QuotientAtMostOne(m, u.majorHeightNoiseAmplitude);
      }
    }
    m / u.majorHeightNoiseAmplitude
  }

  /** The vertex shader's main: world position and the varyings h and hDiff. */
  function VertexMain(field: NoiseField, trig: Trig, u: Uniforms, position: Vec3, offset: Vec2): (out: VertexOut)
    requires u.height != 0.0 && u.majorHeightNoiseAmplitude != 0.0
    ensures out.pos == BladePosition(field, trig, u, position, offset)
    ensures out.h == HeightFraction(position.y, u.height) && out.hDiff == HeightDiff(field, u, offset)
    ensures 0.0 < u.height ==> (0.0 <= out.h <= 1.0 <==> -u.height / 2.0 <= position.y <= u.height / 2.0)
    ensures UnitField(field) && 0.0 < u.majorHeightNoiseAmplitude ==> 0.0 <= out.hDiff <= 1.0
  {
    VertexOut(BladePosition(field, trig, u, position, offset), HeightFraction(position.y, u.height), HeightDiff(field, u, offset))
  }


  /** hDiff is the raw texel under the major height noise: the amplitude cancels. */
  lemma HeightDiffIsTexel(field: NoiseField, u: Uniforms, offset: Vec2)
    requires u.majorHeightNoiseAmplitude != 0.0
    ensures HeightDiff(field, u, offset) == Texel(field, Fract2(Scale2(offset, u.majorHeightNoiseScale)))
  {
    var texel := Texel(field, Fract2(Scale2(offset, u.majorHeightNoiseScale)));
    assert MajorHeightNoise(field, u, offset) == texel * u.majorHeightNoiseAmplitude;
    MulDivCancel(texel, u.majorHeightNoiseAmplitude);
  }

  /** At the root the height noise is scaled away: the vertex sits at its mesh height
      lifted only by the plane noise. */
  lemma RootHeight(field: NoiseField, trig: Trig, u: Uniforms, position: Vec3, offset: Vec2)
    requires u.height != 0.0 && position.y == -u.height / 2.0
    ensures BladePosition(field, trig, u, position, offset).y == position.y + PlaneNoise(field, u, offset)
  {
  }

  /** With cos(0) = 1 the wind does not bend the root: horizontally it sits at its
      grid position plus the per-instance jitter shuffle and rand * 0.2, which are
      not scaled by h. */
  lemma RootUnbent(field: NoiseField, trig: Trig, u: Uniforms, position: Vec3, offset: Vec2)
    requires u.height != 0.0 && position.y == -u.height / 2.0 && trig.cos(0.0) == 1.0
    ensures var p := BladePosition(field, trig, u, position, offset);
            var grid := GridPosition(offset, u.area);
            var shuffle := Shuffle(field, trig, offset);
            p.x == grid.x + shuffle + position.x - Rand(trig, offset) * 0.2 &&
            p.z == grid.y + shuffle + position.z
  {
  }

  /** With cos(0) = 1 a root vertex does not move over time, whatever the wind. */
  lemma RootStillInWind(field: NoiseField, trig: Trig, u: Uniforms, time: real, windNoiseScale: real,
                        windStrength: real, position: Vec3, offset: Vec2)
    requires u.height != 0.0 && position.y == -u.height / 2.0 && trig.cos(0.0) == 1.0
    ensures BladePosition(field, trig, u, position, offset)
         == BladePosition(field, trig, u.(time := time, windNoiseScale := windNoiseScale, windStrength := windStrength), position, offset)
  {
    RootUnbent(field, trig, u, position, offset);
    RootUnbent(field, trig, u.(time := time, windNoiseScale := windNoiseScale, windStrength := windStrength), position, offset);
    RootHeight(field, trig, u, position, offset);
    RootHeight(field, trig, u.(time := time, windNoiseScale := windNoiseScale, windStrength := windStrength), position, offset);
  }

  /** With the plane, minor and major noise amplitudes at zero and cos(0) = 1, a root
      vertex is its mesh vertex moved to its grid position and jittered by shuffle
      and rand * 0.2, which these amplitudes do not control. */
  lemma QuietRoot(field: NoiseField, trig: Trig, u: Uniforms, position: Vec3, offset: Vec2)
    requires u.height != 0.0 && position.y == -u.height / 2.0 && trig.cos(0.0) == 1.0
    requires u.planeNoiseAmplitude == 0.0 && u.minorHeightNoiseAmplitude == 0.0 && u.majorHeightNoiseAmplitude == 0.0
    ensures var grid := GridPosition(offset, u.area);
            var shuffle := Shuffle(field, trig, offset);
            BladePosition(field, trig, u, position, offset) == Vec3(grid.x + shuffle + position.x - Rand(trig, offset) * 0.2, position.y, grid.y + shuffle + position.z)
  {
    RootUnbent(field, trig, u, position, offset);
    RootHeight(field, trig, u, position, offset);
  }

  /** The taper: two vertices of one blade at the same height are pulled together by
      heightPinch(h), horizontally, and nothing else separates them. */
  lemma CrossSectionTaper(field: NoiseField, trig: Trig, u: Uniforms, p1: Vec3, p2: Vec3, offset: Vec2)
    requires u.height != 0.0 && p1.y == p2.y
    ensures var h := HeightFraction(p1.y, u.height);
            var q1 := BladePosition(field, trig, u, p1, offset);
            var q2 := BladePosition(field, trig, u, p2, offset);
            q1.x - q2.x == HeightPinch(h) * (p1.x - p2.x) &&
            q1.z - q2.z == HeightPinch(h) * (p1.z - p2.z) &&
            q1.y == q2.y
  {
  }

  /** At the tip the full height noise is added, on top of the vertex height doubled. */
  lemma TipHeight(field: NoiseField, trig: Trig, u: Uniforms, position: Vec3, offset: Vec2)
    requires u.height != 0.0 && position.y == u.height / 2.0
    ensures BladePosition(field, trig, u, position, offset).y
         == 2.0 * position.y + MinorHeightNoise(field, u, offset) + MajorHeightNoise(field, u, offset)
            + PlaneNoise(field, u, offset)
  {
  }
}
