/**
 * The star particle component (components/StarParticles.tsx): the base
 * particle buffers filled once by the generator, and the per-frame loop that
 * rewrites the position buffer in place from the immutable base data.
 */
module StarParticles {
  import opened Types
  import opened Linear
  import opened Host
  import opened StarPhysics

  /** Number of particles of the two stars. */
  const Count: nat := 12000

  // ---------------------------------------------------------------------
  // Buffer layout: base data has stride 4 (x, y, z, phase), colours and
  // positions have stride 3.
  // ---------------------------------------------------------------------

  function BaseAt(data: seq<real>, i: nat): Vec3
    requires i * 4 + 3 < |data|
  {
    Vec3(data[i * 4], data[i * 4 + 1], data[i * 4 + 2])
  }

  function PhaseAt(data: seq<real>, i: nat): real
    requires i * 4 + 3 < |data|
  {
    data[i * 4 + 3]
  }

  function XyzAt(buf: seq<real>, i: nat): Vec3
    requires i * 3 + 2 < |buf|
  {
    Vec3(buf[i * 3], buf[i * 3 + 1], buf[i * 3 + 2])
  }

  datatype Rgb = Rgb(r: real, g: real, b: real)

  function RgbAt(buf: seq<real>, i: nat): Rgb
    requires i * 3 + 2 < |buf|
  {
    var v := XyzAt(buf, i);
    Rgb(v.x, v.y, v.z)
  }

  /** `buf` with the three entries of slot `i` replaced by `v`; every other slot is kept. */
  function SetXyz(buf: seq<real>, i: nat, v: Vec3): (r: seq<real>)
    requires i * 3 + 2 < |buf|
    ensures |r| == |buf|
    ensures XyzAt(r, i) == v
    ensures forall j: nat :: j * 3 + 2 < |buf| && j != i ==> XyzAt(r, j) == XyzAt(buf, j)
  {
    buf[i * 3 := v.x][i * 3 + 1 := v.y][i * 3 + 2 := v.z]
  }

  /** `buf` with the four entries of slot `i` replaced by `v` and `phase`; every other slot is kept. */
  function SetBase(buf: seq<real>, i: nat, v: Vec3, phase: real): (r: seq<real>)
    requires i * 4 + 3 < |buf|
    ensures |r| == |buf|
    ensures BaseAt(r, i) == v && PhaseAt(r, i) == phase
    ensures forall j: nat :: j * 4 + 3 < |buf| && j != i ==>
      BaseAt(r, j) == BaseAt(buf, j) && PhaseAt(r, j) == PhaseAt(buf, j)
  {
    buf[i * 4 := v.x][i * 4 + 1 := v.y][i * 4 + 2 := v.z][i * 4 + 3 := phase]
  }

  /** THREE's `setXYZ`: writes slot `i` of a stride-3 buffer in place. */
  method WriteXyz(buf: array<real>, i: nat, v: Vec3)
    requires i * 3 + 2 < buf.Length
    modifies buf
    ensures buf[..] == SetXyz(old(buf[..]), i, v)
  {
    buf[i * 3] := v.x;
    buf[i * 3 + 1] := v.y;
    buf[i * 3 + 2] := v.z;
  }

  /** Writes slot `i` of the stride-4 base data in place. */
  method WriteBase(buf: array<real>, i: nat, v: Vec3, phase: real)
    requires i * 4 + 3 < buf.Length
    modifies buf
    ensures buf[..] == SetBase(old(buf[..]), i, v, phase)
  {
    buf[i * 4] := v.x;
    buf[i * 4 + 1] := v.y;
    buf[i * 4 + 2] := v.z;
    buf[i * 4 + 3] := phase;
  }

  // ---------------------------------------------------------------------
  // Stage parameters, as the frame callback selects them
  // ---------------------------------------------------------------------

  /** Starts from the defaults and overrides them for the current stage. */
  method SelectParameters(stage: StarStage) returns (params: StageParams)
    ensures params == StageTable(stage)
    ensures params != DefaultParams
  {
    var separation, starRadius, rotationSpeed := 2.5, 1.3, 0.5;
    if stage == Separated {
      separation := 2.8;
      starRadius := 1.2;
    } else if stage == Contact {
      separation := 1.6;
      starRadius := 1.3;
      rotationSpeed := 0.8;
    } else if stage == Merged {
      separation := 0.0;
      starRadius := 2.2;
      rotationSpeed := 0.5;
    } else if stage == BlackHole {
      separation := 0.0;
      starRadius := 4.0;
      rotationSpeed := 2.0;
    }
    params := StageParams(separation, starRadius, rotationSpeed);
  }

  // ---------------------------------------------------------------------
  // Base particle generation
  // ---------------------------------------------------------------------

  /** The six values `Math.random()` yields for one particle, in the order they are drawn. */
  datatype Draws = Draws(shell: real, radius: real, theta: real, phi: real, phase: real, mix: real)

  predicate UnitDraw(u: real)
  {
    0.0 <= u < 1.0
  }

  predicate ValidDraws(d: Draws)
  {
    UnitDraw(d.shell) && UnitDraw(d.radius) && UnitDraw(d.theta) && UnitDraw(d.phi)
    && UnitDraw(d.phase) && UnitDraw(d.mix)
  }

  /** 60% of particles sit in the shell [0.85, 1.0); the rest fill the volume. */
  function ShellRadius(m: Numerics, d: Draws): (r: real)
    ensures 0.4 < d.shell && UnitDraw(d.radius) ==> 0.85 <= r < 1.0
    ensures UnitBounded(m) && UnitDraw(d.radius) ==> 0.0 <= r < 1.0
  {
    if 0.4 < d.shell then 0.85 + d.radius * 0.15 else m.cbrt(d.radius)
  }

  /**
   * Spherical coordinates of the particle, converted to Cartesian. Every
   * coordinate lies strictly inside the unit cube around the origin.
   */
  function BasePoint(m: Numerics, d: Draws): (v: Vec3)
    ensures UnitBounded(m) && ValidDraws(d) ==>
      -1.0 < v.x < 1.0 && -1.0 < v.y < 1.0 && -1.0 < v.z < 1.0
  {
    var r := ShellRadius(m, d);
    var theta := m.acos(2.0 * d.theta - 1.0);
    var phi := d.phi * Pi * 2.0;
    var st, cp, sp, ct := m.sin(theta), m.cos(phi), m.sin(phi), m.cos(theta);
    CoordinateBound(r, st, cp);
    CoordinateBound(r, st, sp);
    CoordinateBound(r, st, ct);
    Vec3(r * st * cp, r * st * sp, r * ct)
  }

  /** Hex colours #a5f3fc (inside) and #0284c7 (outside), channel by channel. */
  const ColorInside: Rgb := Rgb(165.0 / 255.0, 243.0 / 255.0, 252.0 / 255.0)
  const ColorOutside: Rgb := Rgb(2.0 / 255.0, 132.0 / 255.0, 199.0 / 255.0)

  /** Blend weight of the outside colour: mostly the radius, plus a little jitter. */
  function MixRatio(r: real, jitter: real): (t: real)
    ensures 0.0 <= r < 1.0 && UnitDraw(jitter) ==> 0.0 <= t < 1.0
  {
    r * 0.8 + jitter * 0.2
  }

  function LerpRgb(a: Rgb, b: Rgb, t: real): Rgb
  {
    Rgb(Lerp(a.r, b.r, t), Lerp(a.g, b.g, t), Lerp(a.b, b.b, t))
  }

  /** Each colour channel lies between the outside and the inside key colour. */
  function ParticleColor(m: Numerics, d: Draws): (c: Rgb)
    ensures UnitBounded(m) && ValidDraws(d) ==>
      && ColorOutside.r <= c.r <= ColorInside.r
      && ColorOutside.g <= c.g <= ColorInside.g
      && ColorOutside.b <= c.b <= ColorInside.b
  {
    var t := MixRatio(ShellRadius(m, d), d.mix);
    LerpBetween(ColorInside.r, ColorOutside.r, t);
    LerpBetween(ColorInside.g, ColorOutside.g, t);
    LerpBetween(ColorInside.b, ColorOutside.b, t);
    LerpRgb(ColorInside, ColorOutside, t)
  }

  /** Fills the base data (stride 4) and the colours (stride 3) of every particle. */
  method GenerateParticles(m: Numerics, draws: seq<Draws>) returns (data: array<real>, cols: array<real>)
    ensures fresh(data) && fresh(cols) && data != cols
    ensures data.Length == |draws| * 4 && cols.Length == |draws| * 3
    ensures forall i :: 0 <= i < |draws| ==>
      BaseAt(data[..], i) == BasePoint(m, draws[i]) && PhaseAt(data[..], i) == draws[i].phase
    ensures forall i :: 0 <= i < |draws| ==> RgbAt(cols[..], i) == ParticleColor(m, draws[i])
  {
    var count := |draws|;
    data := new real[count * 4];
    cols := new real[count * 3];
    for i := 0 to count
      invariant forall j :: 0 <= j < i ==>
        BaseAt(data[..], j) == BasePoint(m, draws[j]) && PhaseAt(data[..], j) == draws[j].phase
      invariant forall j :: 0 <= j < i ==> RgbAt(cols[..], j) == ParticleColor(m, draws[j])
    {
      var d := draws[i];
      WriteBase(data, i, BasePoint(m, d), d.phase);
      var c := ParticleColor(m, d);
      WriteXyz(cols, i, Vec3(c.r, c.g, c.b));
    }
  }

  /** A radius below 1 times two factors in [-1, 1] stays strictly inside (-1, 1). */
  lemma CoordinateBound(r: real, a: real, b: real)
    ensures 0.0 <= r < 1.0 && -1.0 <= a <= 1.0 && -1.0 <= b <= 1.0 ==>
      -1.0 < r * a * b < 1.0 && -1.0 < r * b < 1.0
  {
    if 0.0 <= r < 1.0 && -1.0 <= a <= 1.0 && -1.0 <= b <= 1.0 {
      ScaleBound(r, a, r);
      ScaleBound(r * a, b, r);
      ScaleBound(r, b, r);
    }
  }

  // ---------------------------------------------------------------------
  // The particle system and its frame loop
  // ---------------------------------------------------------------------

  class StarField {
    const count: nat
    /** Base x, y, z and phase of every particle; written once, never again. */
    const particleData: array<real>
    /** Colour of every particle; written once, never again. */
    const colors: array<real>
    /** The position buffer handed to the renderer, rewritten every frame. */
    const positions: array<real>
    /** Whether the points object is attached; the frame callback does nothing otherwise. */
    const mounted: bool
    /** Rotation of the whole point set about the vertical axis. */
    var rotationY: real

    ghost predicate Valid()
      reads this
    {
      && particleData.Length == count * 4
      && colors.Length == count * 3
      && positions.Length == count * 3
      && positions != particleData && positions != colors
    }

    constructor (m: Numerics, draws: seq<Draws>, mounted: bool)
      requires |draws| == Count
      ensures Valid() && count == Count && this.mounted == mounted
      ensures fresh(particleData) && fresh(colors) && fresh(positions)
      ensures forall i :: 0 <= i < count ==>
        BaseAt(particleData[..], i) == BasePoint(m, draws[i]) && PhaseAt(particleData[..], i) == draws[i].phase
      ensures forall i :: 0 <= i < count ==> RgbAt(colors[..], i) == ParticleColor(m, draws[i])
      ensures forall k :: 0 <= k < positions.Length ==> positions[k] == 0.0
      ensures rotationY == 0.0
    {
      count := |draws|;
      var data, cols := GenerateParticles(m, draws);
      particleData := data;
      colors := cols;
      positions := new real[|draws| * 3](_ => 0.0);
      this.mounted := mounted;
      rotationY := 0.0;
    }

    /** Where particle `i` belongs this frame, read from the base data. */
    ghost function PositionOf(m: Numerics, stage: StarStage, openness: real, time: real, i: nat): Vec3
      reads this, particleData
      requires Valid() && SqrtNonNegative(m) && i < count
    {
      ParticlePosition(m, stage, i, BaseAt(particleData[..], i), PhaseAt(particleData[..], i), openness, time)
    }

    /**
     * One frame: rewrites the position of every particle from the base data,
     * the stage and the openness, and sets the system rotation.
     */
    method Frame(m: Numerics, stage: StarStage, openness: real, time: real)
      requires Valid() && SqrtNonNegative(m)
      modifies positions, this`rotationY
      ensures unchanged(particleData) && unchanged(colors)
      ensures !mounted ==> unchanged(positions) && rotationY == old(rotationY)
      ensures mounted ==> forall i :: 0 <= i < count ==>
        XyzAt(positions[..], i) == PositionOf(m, stage, openness, time, i)
      ensures mounted ==> rotationY == time * StageTable(stage).rotationSpeed
    {
      if !mounted {
        return;
      }
      var expansion := Expansion(openness);
      var turbulence := Turbulence(openness);
      var params := SelectParameters(stage);
      for i := 0 to count
        invariant forall j :: 0 <= j < i ==> XyzAt(positions[..], j) == PositionOf(m, stage, openness, time, j)
      {
        var i4 := i * 4;
        var b := Vec3(particleData[i4], particleData[i4 + 1], particleData[i4 + 2]);
        var rnd := particleData[i4 + 3];
        var v: Vec3;
        if stage == BlackHole {
          v := BlackHolePoint(m, b, rnd, params.rotationSpeed, expansion, time);
        } else {
          v := TwinStarPoint(m, stage, StarOf(i), b, rnd, params, expansion, turbulence, openness, time);
        }
        assert b == BaseAt(particleData[..], i) && rnd == PhaseAt(particleData[..], i);
        assert v == ParticlePosition(m, stage, i, b, rnd, openness, time);
        WriteXyz(positions, i, v);
      }
      rotationY := time * params.rotationSpeed;
    }
  }
}
