/**
 * The per-particle arithmetic of the star particle engine
 * (components/StarParticles.tsx): the stage parameter table, the per-frame
 * scalars driven by the hand openness, the accretion-disk mapping of the
 * black-hole stage and the twin-star placement with its contact-stage tidal
 * deformation and turbulence.
 */
module StarPhysics {
  import opened Types
  import opened Linear
  import opened Host

  // ---------------------------------------------------------------------
  // Stage parameters
  // ---------------------------------------------------------------------

  datatype StageParams = StageParams(separation: real, starRadius: real, rotationSpeed: real)

  /** The values the frame callback starts from before looking at the stage. */
  const DefaultParams: StageParams := StageParams(2.5, 1.3, 0.5)

  /**
   * The stage table: distance between the two star centres, star radius,
   * system spin. Every stage overrides the defaults; every radius and spin is
   * positive, and only Merged and Black Hole put the two centres together.
   */
  function StageTable(stage: StarStage): (r: StageParams)
    ensures r != DefaultParams
    ensures 0.0 < r.starRadius && 0.0 < r.rotationSpeed
    ensures r.separation == 0.0 <==> stage == Merged || stage == BlackHole
    ensures 0.0 <= r.separation
  {
    match stage
    case Separated => StageParams(2.8, 1.2, 0.5)
    case Contact => StageParams(1.6, 1.3, 0.8)
    case Merged => StageParams(0.0, 2.2, 0.5)
    case BlackHole => StageParams(0.0, 4.0, 2.0)
  }

  // ---------------------------------------------------------------------
  // Per-frame scalars driven by the openness control
  // ---------------------------------------------------------------------

  /** Scale applied to every star; interpolates from 0.8 (closed fist) to 1.2 (open hand). */
  function Expansion(openness: real): (e: real)
    ensures e == Lerp(0.8, 1.2, openness)
    ensures 0.0 <= openness <= 1.0 ==> 0.8 <= e <= 1.2
  {
    0.8 + openness * 0.4
  }

  /** Amplitude of the surface noise; interpolates from 0.05 to 0.2. */
  function Turbulence(openness: real): (t: real)
    ensures t == Lerp(0.05, 0.2, openness)
    ensures 0.0 <= openness <= 1.0 ==> 0.05 <= t <= 0.2
  {
    0.05 + openness * 0.15
  }

  // ---------------------------------------------------------------------
  // Black-hole stage: accretion disk
  // ---------------------------------------------------------------------

  /** Distance of a base point from the origin. */
  function RawRadius(m: Numerics, b: Vec3): (r: real)
    requires SqrtNonNegative(m)
    ensures 0.0 <= r
  {
    var sq := b.x * b.x + b.y * b.y + b.z * b.z;
    assert 0.0 <= b.x * b.x && 0.0 <= b.y * b.y && 0.0 <= b.z * b.z;
    m.sqrt(sq)
  }

  /** Radius in the flattened disk: the unit sphere spreads over [1.2, 4.7]. */
  function DiskRadius(rawRadius: real): (d: real)
    requires 0.0 <= rawRadius
    ensures 1.2 <= d
    ensures rawRadius <= 1.0 ==> d <= 4.7
  {
    1.2 + rawRadius * 3.5
  }

  /** Angular speed on the disk, inversely proportional to the disk radius. */
  function AngularSpeed(rotationSpeed: real, diskRadius: real): (s: real)
    requires 0.0 < diskRadius
    ensures s * diskRadius == rotationSpeed * 5.0
  {
    (rotationSpeed * 5.0) / diskRadius
  }

  /**
   * The point at cosine `c` and sine `s` on the ring of radius `reach`,
   * lifted to `height` and displaced vertically by the sine `w` times the
   * amplitude `amp`.
   */
  function Ring(c: real, s: real, w: real, reach: real, amp: real, height: real): (v: Vec3)
    ensures -1.0 <= c <= 1.0 && -1.0 <= s <= 1.0 && 0.0 <= reach ==>
      -reach <= v.x <= reach && -reach <= v.z <= reach
    ensures -1.0 <= w <= 1.0 && 0.0 <= amp ==> -amp <= v.y - height <= amp
  {
    ScaleWithin(c, reach);
    ScaleWithin(s, reach);
    ScaleWithin(w, amp);
    Vec3(c * reach, height + w * amp, s * reach)
  }

  /**
   * Position on the disk before the event-horizon correction. The disk is
   * flat: horizontally the point stays within its disk radius times the
   * expansion, and vertically within `0.1 * expansion` of a tenth of its base
   * height.
   */
  function DiskPoint(m: Numerics, b: Vec3, phase: real, rotationSpeed: real, expansion: real, time: real): (v: Vec3)
    requires SqrtNonNegative(m)
    ensures UnitBounded(m) && 0.0 <= expansion ==>
      var reach := DiskRadius(RawRadius(m, b)) * expansion;
      && -reach <= v.x <= reach && -reach <= v.z <= reach
      && -0.1 * expansion <= v.y - b.y * 0.1 <= 0.1 * expansion
  {
    var d := DiskRadius(RawRadius(m, b));
    var angle := time * AngularSpeed(rotationSpeed, d) + phase * Pi * 2.0;
    MulNonNegative(d, expansion);
    Ring(m.cos(angle), m.sin(angle), m.sin(angle * 3.0 + time * 2.0), d * expansion, 0.1 * expansion, b.y * 0.1)
  }

  /** Matter close to the core is squeezed horizontally and thrown vertically. */
  function EventHorizon(v: Vec3, rawRadius: real): (r: Vec3)
    ensures 0.2 <= rawRadius ==> r == v
    ensures rawRadius < 0.2 ==> Abs(r.x) <= Abs(v.x) && Abs(r.z) <= Abs(v.z) && Abs(v.y) <= Abs(r.y)
    ensures rawRadius < 0.2 ==> (v.x != 0.0 ==> Abs(r.x) < Abs(v.x)) && (v.z != 0.0 ==> Abs(r.z) < Abs(v.z))
    ensures rawRadius < 0.2 ==> (v.y != 0.0 ==> Abs(v.y) < Abs(r.y))
  {
    if rawRadius < 0.2 then Vec3(v.x * 0.2, v.y * 5.0, v.z * 0.2) else v
  }

  /**
   * Final position of a particle in the black-hole stage. The horizon only
   * squeezes horizontally, so the particle stays within its disk radius
   * times the expansion.
   */
  function BlackHolePoint(m: Numerics, b: Vec3, phase: real, rotationSpeed: real, expansion: real, time: real): (v: Vec3)
    requires SqrtNonNegative(m)
    ensures UnitBounded(m) && 0.0 <= expansion ==>
      var reach := DiskRadius(RawRadius(m, b)) * expansion;
      -reach <= v.x <= reach && -reach <= v.z <= reach
  {
    var disk := DiskPoint(m, b, phase, rotationSpeed, expansion, time);
    var raw := RawRadius(m, b);
    var reach := DiskRadius(raw) * expansion;
    assert UnitBounded(m) && 0.0 <= expansion ==>
      -reach <= disk.x <= reach && -reach <= disk.z <= reach;
    assert raw < 0.2 ==> EventHorizon(disk, raw) == Vec3(disk.x * 0.2, disk.y * 5.0, disk.z * 0.2);
    assert 0.2 <= raw ==> EventHorizon(disk, raw) == disk;
    EventHorizon(disk, raw)
  }

  // ---------------------------------------------------------------------
  // Twin-star stages
  // ---------------------------------------------------------------------

  /** The two bodies; particles are assigned by the parity of their index. */
  datatype Star = StarA | StarB

  function StarOf(i: nat): Star
  {
    if i % 2 == 0 then StarA else StarB
  }

  function Companion(s: Star): Star
  {
    if s == StarA then StarB else StarA
  }

  /** Side of the x axis the star sits on: A on the left, B on the right. */
  function Dir(s: Star): real
  {
    if s == StarA then -1.0 else 1.0
  }

  function CenterX(s: Star, separation: real): real
  {
    Dir(s) * (separation / 2.0)
  }

  /** The particle's base offset points toward the companion star. */
  predicate OnInnerFace(s: Star, bx: real)
  {
    (s == StarA && 0.0 < bx) || (s == StarB && bx < 0.0)
  }

  /** Strength of the tidal pull: 1 on the axis, fading to 0 at distance 2/3 and beyond. */
  function PullFactor(distFromAxis: real): (p: real)
    ensures 0.0 <= p
    ensures 0.0 <= distFromAxis ==> p <= 1.0
    ensures 0.0 < p <==> distFromAxis < 2.0 / 3.0
  {
    Max(0.0, 1.0 - distFromAxis * 1.5)
  }

  /** Elongation factor of the inner face; no stretch for a closed hand. */
  function Stretch(pull: real, openness: real): (st: real)
    ensures openness == 0.0 || pull == 0.0 ==> st == 1.0
    ensures 0.0 <= pull && 0.0 <= openness ==> 1.0 <= st
  {
    1.0 + pull * 0.8 * openness
  }

  /**
   * Contact-stage tidal deformation of the scaled point `p` of base point `b`:
   * the inner face is stretched along x, and where the stretched x lies within
   * 0.5 of the star's own centre the cross-section is pinched. The test is on
   * the offset from the star's centre, not on the distance to the neck between
   * the two stars (see `PinchStopsShortOfNeck`).
   */
  function TidalDeform(m: Numerics, s: Star, b: Vec3, p: Vec3, openness: real): (q: Vec3)
    ensures !OnInnerFace(s, b.x) ==> q == p
    ensures OnInnerFace(s, b.x) ==>
      q.x == p.x * Stretch(PullFactor(m.sqrt(b.y * b.y + b.z * b.z)), openness)
    ensures OnInnerFace(s, b.x) && Abs(q.x) < 0.5 ==> q.y == p.y * 0.8 && q.z == p.z * 0.8
    ensures !(OnInnerFace(s, b.x) && Abs(q.x) < 0.5) ==> q.y == p.y && q.z == p.z
  {
    if OnInnerFace(s, b.x) then
      var pull := PullFactor(m.sqrt(b.y * b.y + b.z * b.z));
      var px := p.x * Stretch(pull, openness);
      if Abs(px) < 0.5 then Vec3(px, p.y * 0.8, p.z * 0.8) else Vec3(px, p.y, p.z)
    else
      p
  }

  /** Surface flicker, never larger than the turbulence amplitude. */
  function Noise(m: Numerics, time: real, phase: real, px: real, turbulence: real): (n: real)
    ensures UnitBounded(m) && 0.0 <= turbulence ==> -turbulence <= n <= turbulence
  {
    var arg := time * 3.0 + phase * 20.0 + px;
    TrigScale(m, arg, turbulence);
    m.sin(arg) * turbulence
  }

  /**
   * The base point scaled to the star's size. A positive scale keeps every
   * particle on the same side of its star's centre along x.
   */
  function Scaled(b: Vec3, starRadius: real, expansion: real): (p: Vec3)
    ensures 0.0 < starRadius * expansion ==>
      (0.0 < p.x <==> 0.0 < b.x) && (p.x < 0.0 <==> b.x < 0.0)
  {
    SignOfScale(b.x, starRadius * expansion);
    Vec3(b.x * starRadius * expansion, b.y * starRadius * expansion, b.z * starRadius * expansion)
  }

  /**
   * The scaled point, tidally deformed in the contact stage. Only contact
   * deforms, and even then the outer face is left as it is.
   */
  function Deformed(m: Numerics, stage: StarStage, s: Star, b: Vec3,
                    starRadius: real, expansion: real, openness: real): (q: Vec3)
    ensures stage != Contact || !OnInnerFace(s, b.x) ==> q == Scaled(b, starRadius, expansion)
  {
    var p := Scaled(b, starRadius, expansion);
    if stage == Contact then TidalDeform(m, s, b, p, openness) else p
  }

  /**
   * Final position of a particle of star `s` in a non-black-hole stage: the
   * deformed point moved to the star's centre, displaced by one noise value
   * that is the same on all three axes and bounded by the turbulence.
   */
  function TwinStarPoint(m: Numerics, stage: StarStage, s: Star, b: Vec3, phase: real,
                         params: StageParams, expansion: real, turbulence: real,
                         openness: real, time: real): (v: Vec3)
    ensures var q := Deformed(m, stage, s, b, params.starRadius, expansion, openness);
      && v.z - q.z == v.y - q.y
      && v.x - CenterX(s, params.separation) - q.x == v.y - q.y
      && (UnitBounded(m) && 0.0 <= turbulence ==> -turbulence <= v.y - q.y <= turbulence)
  {
    var q := Deformed(m, stage, s, b, params.starRadius, expansion, openness);
    var n := Noise(m, time, phase, q.x, turbulence);
    Vec3(CenterX(s, params.separation) + (q.x + n), q.y + n, q.z + n)
  }

  /**
   * Position of particle `i` with base point `b` and phase `phase` in one
   * frame. In the black-hole stage the particle stays within its disk radius
   * times the expansion; in the other stages it is displaced from its
   * deformed point, relative to its star's centre, by one offset on all
   * three axes, bounded by the turbulence.
   */
  function ParticlePosition(m: Numerics, stage: StarStage, i: nat, b: Vec3, phase: real,
                            openness: real, time: real): (v: Vec3)
    requires SqrtNonNegative(m)
    ensures stage == BlackHole && UnitBounded(m) && 0.0 <= openness ==>
      var reach := DiskRadius(RawRadius(m, b)) * Expansion(openness);
      -reach <= v.x <= reach && -reach <= v.z <= reach
    ensures stage != BlackHole ==>
      var params := StageTable(stage);
      var q := Deformed(m, stage, StarOf(i), b, params.starRadius, Expansion(openness), openness);
      && v.z - q.z == v.y - q.y
      && v.x - CenterX(StarOf(i), params.separation) - q.x == v.y - q.y
      && (UnitBounded(m) && 0.0 <= openness ==> -Turbulence(openness) <= v.y - q.y <= Turbulence(openness))
  {
    var params := StageTable(stage);
    if stage == BlackHole then
      BlackHolePoint(m, b, phase, params.rotationSpeed, Expansion(openness), time)
    else
      TwinStarPoint(m, stage, StarOf(i), b, phase, params, Expansion(openness),
                    Turbulence(openness), openness, time)
  }

  // ---------------------------------------------------------------------
  // Properties
  // ---------------------------------------------------------------------

  /** Even and odd indices alternate between the two stars. */
  lemma PartitionAlternates(i: nat)
    ensures StarOf(i) != StarOf(i + 1)
    ensures StarOf(i) == StarOf(i + 2)
    ensures StarOf(i + 1) == Companion(StarOf(i))
  {
  }

  /** The two centres are `separation` apart and symmetric about the origin. */
  lemma CentersSymmetric(s: Star, separation: real)
    ensures CenterX(Companion(s), separation) == -CenterX(s, separation)
    ensures CenterX(StarB, separation) - CenterX(StarA, separation) == separation
    ensures s == StarA ==> CenterX(s, separation) == -separation / 2.0
    ensures s == StarB ==> CenterX(s, separation) == separation / 2.0
  {
  }

  /** The inner face is exactly the hemisphere whose x offset points toward the companion. */
  lemma InnerFaceFacesCompanion(s: Star, bx: real)
    ensures OnInnerFace(s, bx) <==> Dir(s) * bx < 0.0
  {
  }

  /**
   * For scaled offsets shorter than twice the separation, the inner face is
   * exactly the set of particles that the scaled offset brings closer to the
   * companion's centre.
   */
  lemma InnerFaceApproachesCompanion(s: Star, b: Vec3, starRadius: real, expansion: real, separation: real)
    requires 0.0 < separation && 0.0 < starRadius * expansion
    requires Abs(Scaled(b, starRadius, expansion).x) < 2.0 * separation
    ensures var px := Scaled(b, starRadius, expansion).x;
      OnInnerFace(s, b.x) <==>
        Abs(CenterX(s, separation) + px - CenterX(Companion(s), separation))
          < Abs(CenterX(s, separation) - CenterX(Companion(s), separation))
  {
    var px := Scaled(b, starRadius, expansion).x;
    assert (0.0 < px <==> 0.0 < b.x) && (px < 0.0 <==> b.x < 0.0);
  }

  /** More openness never shrinks the stretch, and strictly grows it where the pull is active. */
  lemma StretchMonotone(pull: real, o1: real, o2: real)
    requires 0.0 <= pull && o1 <= o2
    ensures Stretch(pull, o1) <= Stretch(pull, o2)
    ensures 0.0 < pull && o1 < o2 ==> Stretch(pull, o1) < Stretch(pull, o2)
  {
    var k := pull * 0.8;
    assert Stretch(pull, o2) - Stretch(pull, o1) == k * (o2 - o1);
    assert 0.0 <= k * (o2 - o1);
    if 0.0 < pull && o1 < o2 {
      assert 0.0 < k * (o2 - o1);
    }
  }

  /** Inner disk particles orbit faster than outer ones. */
  lemma SpeedDecreasing(rotationSpeed: real, d1: real, d2: real)
    requires 0.0 < rotationSpeed && 0.0 < d1 < d2
    ensures AngularSpeed(rotationSpeed, d2) < AngularSpeed(rotationSpeed, d1)
  {
    var s1, s2 := AngularSpeed(rotationSpeed, d1), AngularSpeed(rotationSpeed, d2);
    assert s1 * d1 == s2 * d2;
    assert 0.0 < s2;
    assert s2 * d1 < s2 * d2;
  }

  /** A particle nearer the core of the base sphere lands on a faster orbit. */
  lemma InnerOrbitsFaster(rotationSpeed: real, r1: real, r2: real)
    requires 0.0 < rotationSpeed && 0.0 <= r1 < r2
    ensures AngularSpeed(rotationSpeed, DiskRadius(r2)) < AngularSpeed(rotationSpeed, DiskRadius(r1))
  {
    SpeedDecreasing(rotationSpeed, DiskRadius(r1), DiskRadius(r2));
  }

  /** Inside the horizon the disk point is scaled by (0.2, 5, 0.2); outside it is kept. */
  lemma HorizonScaling(m: Numerics, stage: StarStage, i: nat, b: Vec3, phase: real, openness: real, time: real)
    requires SqrtNonNegative(m) && stage == BlackHole
    ensures var v := DiskPoint(m, b, phase, StageTable(BlackHole).rotationSpeed, Expansion(openness), time);
      var r := ParticlePosition(m, stage, i, b, phase, openness, time);
      (RawRadius(m, b) < 0.2 ==> r == Vec3(v.x * 0.2, v.y * 5.0, v.z * 0.2))
      && (0.2 <= RawRadius(m, b) ==> r == v)
  {
  }

  /** The disk ignores the star partition: both parities of index land on the same point. */
  lemma DiskIgnoresPartition(m: Numerics, i: nat, j: nat, b: Vec3, phase: real, openness: real, time: real)
    requires SqrtNonNegative(m)
    ensures ParticlePosition(m, BlackHole, i, b, phase, openness, time)
         == ParticlePosition(m, BlackHole, j, b, phase, openness, time)
  {
  }

  /**
   * Without contact there is no stretch and no pinch: the particle is its base
   * point scaled by radius times expansion, moved to its star's centre, plus
   * the same noise on every axis.
   */
  lemma UndeformedStages(m: Numerics, stage: StarStage, i: nat, b: Vec3, phase: real, openness: real, time: real)
    requires SqrtNonNegative(m) && (stage == Separated || stage == Merged)
    ensures var p := Scaled(b, StageTable(stage).starRadius, Expansion(openness));
      var n := Noise(m, time, phase, p.x, Turbulence(openness));
      ParticlePosition(m, stage, i, b, phase, openness, time)
        == Vec3(CenterX(StarOf(i), StageTable(stage).separation) + (p.x + n), p.y + n, p.z + n)
  {
  }

  /** In the merged stage both centres are at the origin, so parity does not matter. */
  lemma MergedCentresCoincide(m: Numerics, i: nat, j: nat, b: Vec3, phase: real, openness: real, time: real)
    requires SqrtNonNegative(m)
    ensures CenterX(StarOf(i), StageTable(Merged).separation) == 0.0
    ensures ParticlePosition(m, Merged, i, b, phase, openness, time)
         == ParticlePosition(m, Merged, j, b, phase, openness, time)
  {
  }

  /** In contact, a particle on the outer face keeps its scaled position: only noise and centre are added. */
  lemma OuterFaceUnstretched(m: Numerics, i: nat, b: Vec3, phase: real, openness: real, time: real)
    requires SqrtNonNegative(m) && !OnInnerFace(StarOf(i), b.x)
    ensures var p := Scaled(b, 1.3, Expansion(openness));
      var n := Noise(m, time, phase, p.x, Turbulence(openness));
      ParticlePosition(m, Contact, i, b, phase, openness, time)
        == Vec3(CenterX(StarOf(i), 1.6) + (p.x + n), p.y + n, p.z + n)
  {
  }

  /**
   * In Contact the centres sit at -0.8 and +0.8, and only offsets within 0.5
   * of a star's own centre are pinched: a pinched particle is always more
   * than 0.3 away from the neck at x = 0, so a particle at the neck keeps its
   * full cross-section.
   */
  lemma PinchStopsShortOfNeck(m: Numerics, s: Star, b: Vec3, openness: real)
    ensures var p := Scaled(b, 1.3, Expansion(openness));
      var q := Deformed(m, Contact, s, b, 1.3, Expansion(openness), openness);
      (q.y != p.y || q.z != p.z) ==> 0.3 < Abs(CenterX(s, 1.6) + q.x)
    ensures var p := Scaled(b, 1.3, Expansion(openness));
      var q := Deformed(m, Contact, s, b, 1.3, Expansion(openness), openness);
      CenterX(s, 1.6) + q.x == 0.0 ==> q.y == p.y && q.z == p.z
  {
  }

  /**
   * The worked scenario: at time 0 with openness 0.5 in the separated stage,
   * base points (1,0,0) and (-1,0,0) at indices 0 and 1 land at x = -0.2 and
   * x = +0.2 plus their noise term.
   */
  lemma SeparatedScenario(m: Numerics, phase0: real, phase1: real)
    requires SqrtNonNegative(m)
    ensures var n0 := m.sin(phase0 * 20.0 + 1.2) * 0.125;
      ParticlePosition(m, Separated, 0, Vec3(1.0, 0.0, 0.0), phase0, 0.5, 0.0) == Vec3(-0.2 + n0, n0, n0)
    ensures var n1 := m.sin(phase1 * 20.0 - 1.2) * 0.125;
      ParticlePosition(m, Separated, 1, Vec3(-1.0, 0.0, 0.0), phase1, 0.5, 0.0) == Vec3(0.2 + n1, n1, n1)
  {
    var params := StageTable(Separated);
    assert params == StageParams(2.8, 1.2, 0.5);
    assert Expansion(0.5) == 1.0 && Turbulence(0.5) == 0.125;
    assert Scaled(Vec3(1.0, 0.0, 0.0), 1.2, 1.0) == Vec3(1.2, 0.0, 0.0);
    assert Scaled(Vec3(-1.0, 0.0, 0.0), 1.2, 1.0) == Vec3(-1.2, 0.0, 0.0);
    assert StarOf(0) == StarA && StarOf(1) == StarB;
    assert CenterX(StarA, 2.8) == -1.4 && CenterX(StarB, 2.8) == 1.4;
    assert Noise(m, 0.0, phase0, 1.2, 0.125) == m.sin(phase0 * 20.0 + 1.2) * 0.125;
    assert Noise(m, 0.0, phase1, -1.2, 0.125) == m.sin(phase1 * 20.0 - 1.2) * 0.125;
  }
}
