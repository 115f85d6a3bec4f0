# Binary-star particle engine, modelled in Dafny

This project models the core of a WebGL visualisation of two orbiting stars
that touch, merge and collapse into an accretion disk. The user selects one of
four stages (`Separated`, `Contact`, `Merged`, `Black Hole`); a hand-gesture
reading called *openness* (0 for a closed fist, 1 for an open hand) drives how
large and turbulent the stars are and how far the contact stage stretches them.

What is modelled:

- **Stage parameters** (`StarPhysics.StageTable`, `StarParticles.SelectParameters`):
  separation of the two star centres, star radius and system spin per stage.
- **Base particle buffers** (`StarParticles.GenerateParticles`): the one-time
  generator filling a stride-4 array (x, y, z, phase) and a stride-3 colour
  array, with the random draws supplied as a parameter.
- **The frame loop** (`StarParticles.StarField.Frame`): rewrites the
  stride-3 position buffer in place, one slot per particle, from the immutable
  base data, then sets the rotation of the whole point set. Its per-particle
  arithmetic lives in `StarPhysics`: the accretion disk with its event-horizon
  correction, and the twin-star placement (even indices form star A on the
  left, odd indices star B on the right) with the contact-stage tidal stretch,
  pinch of the cross-section and shared turbulence noise.
- **App control logic** (`App`): the camera that frames the stage and moves
  `2 * delta` of the way toward its target each frame, the 70/30 openness
  smoothing filter, and the initial application state.

All arithmetic is over `real`. `Math.sin`, `cos`, `sqrt`, `cbrt` and `acos`
are passed in as a `Host.Numerics` record of functions. The only facts assumed
about them are stated in `Host.SqrtNonNegative` and `Host.UnitBounded`.

## Model

| member | source | states |
|---|---|---|
| `Linear.Lerp` | App.tsx:29 | THREE-style interpolation returns the start at factor 0, the end at factor 1, and the common value when both ends agree |
| `Linear.LerpBetween` | App.tsx:29 | for a factor in [0, 1] the interpolated value lies between the two end points |
| `Linear.LerpCloser` | App.tsx:29 | the remaining gap to the target is exactly `|1 - t|` times the old gap: for a factor in [0, 2] it never grows, and for a factor above 2 it strictly grows unless the start is already the target |
| `Linear.LerpVec` | App.tsx:29 | component-wise interpolation keeps a vector already at the target there and reaches the target at factor 1 |
| `StarParticles.SelectParameters` | components/StarParticles.tsx:92-111 | starting from the defaults (2.5, 1.3, 0.5) and overriding per stage yields exactly the table Separated (2.8, 1.2, 0.5), Contact (1.6, 1.3, 0.8), Merged (0, 2.2, 0.5), Black Hole (0, 4.0, 2.0), and never the defaults |
| `StarPhysics.StageTable` | components/StarParticles.tsx:92-111 | no stage yields the defaults; every radius and spin is positive; the separation is never negative and is 0 exactly for Merged and Black Hole |
| `StarPhysics.Expansion` | components/StarParticles.tsx:88 | expansion is the interpolation from 0.8 to 1.2 by openness, so it stays in [0.8, 1.2] for openness in [0, 1] |
| `StarPhysics.Turbulence` | components/StarParticles.tsx:89 | turbulence is the interpolation from 0.05 to 0.2 by openness, so it stays in [0.05, 0.2] for openness in [0, 1] |
| `StarPhysics.RawRadius` | components/StarParticles.tsx:125 | the distance of a base point from the origin is non-negative |
| `StarPhysics.DiskRadius` | components/StarParticles.tsx:126 | the disk radius is at least 1.2 (so dividing by it is defined) and at most 4.7 for points of the unit sphere |
| `StarPhysics.AngularSpeed` | components/StarParticles.tsx:128 | speed times disk radius equals five times the rotation speed: speed is inversely proportional to the radius |
| `StarPhysics.Ring` | components/StarParticles.tsx:132-134 | with cosine, sine and wobble in [-1, 1], x and z stay within the ring radius and y within the wobble amplitude of its base height |
| `StarPhysics.DiskPoint` | components/StarParticles.tsx:125-134 | the disk is flat: x and z stay within the disk radius times the expansion, and y within `0.1 * expansion` of a tenth of the base height |
| `StarPhysics.SpeedDecreasing` | components/StarParticles.tsx:128 | for a positive rotation speed, a larger disk radius gives a strictly smaller angular speed |
| `StarPhysics.InnerOrbitsFaster` | components/StarParticles.tsx:125-128 | a particle nearer the centre of the base sphere orbits strictly faster on the disk |
| `StarPhysics.EventHorizon` | components/StarParticles.tsx:137-141 | outside radius 0.2 the point is kept; inside, x and z never grow (strictly shrink when non-zero) and y never shrinks (strictly grows when non-zero) |
| `StarPhysics.BlackHolePoint` | components/StarParticles.tsx:123-141 | after the horizon correction a black-hole particle still lies within its disk radius times the expansion on x and z |
| `StarPhysics.HorizonScaling` | components/StarParticles.tsx:123-141 | a black-hole particle inside radius 0.2 sits at (0.2 x, 5 y, 0.2 z) of its uncorrected disk point, and exactly on it otherwise |
| `StarPhysics.DiskIgnoresPartition` | components/StarParticles.tsx:123-141 | in the black-hole stage a particle's position does not depend on which star its index belongs to |
| `StarPhysics.PartitionAlternates` | components/StarParticles.tsx:146 | `StarOf` (index parity) puts consecutive indices on different stars and indices two apart on the same star |
| `StarPhysics.CentersSymmetric` | components/StarParticles.tsx:146-150 | `CenterX` puts star A at `-separation/2` and star B at `+separation/2`: mirror images, `separation` apart |
| `StarPhysics.InnerFaceFacesCompanion` | components/StarParticles.tsx:164 | `OnInnerFace` holds exactly when the particle's x offset points toward the companion |
| `StarPhysics.InnerFaceApproachesCompanion` | components/StarParticles.tsx:146-164 | for a positive scale and a scaled x offset shorter than twice the separation, a particle is on the inner face exactly when its scaled offset brings it closer to the companion's centre |
| `StarPhysics.PullFactor` | components/StarParticles.tsx:166-167 | the pull lies in [0, 1] for a non-negative distance from the axis and is positive exactly below distance 2/3 |
| `StarPhysics.Stretch` | components/StarParticles.tsx:169 | the stretch is at least 1 for non-negative pull and openness, and exactly 1 for a closed hand or no pull |
| `StarPhysics.StretchMonotone` | components/StarParticles.tsx:169 | more openness never lowers the stretch and strictly raises it wherever the pull is positive |
| `StarPhysics.TidalDeform` | components/StarParticles.tsx:164-177 | outer-face points are left alone; inner-face points have x multiplied by the stretch; y and z are multiplied by 0.8 exactly when the point is on the inner face and the stretched x is within 0.5 of the star's own centre, and are untouched otherwise |
| `StarPhysics.PinchStopsShortOfNeck` | components/StarParticles.tsx:146-188 | in Contact a pinched particle is always more than 0.3 from the neck at x = 0 (the test is on the offset from the star's own centre, at ±0.8), so a particle at the neck is never pinched |
| `StarPhysics.Noise` | components/StarParticles.tsx:182 | the surface noise never exceeds the turbulence amplitude in either direction |
| `StarPhysics.Scaled` | components/StarParticles.tsx:153-155 | scaling by a positive radius times expansion keeps the x offset on the same side of the star's centre |
| `StarPhysics.Deformed` | components/StarParticles.tsx:153-177 | only the contact stage deforms, and even then an outer-face particle keeps its scaled position |
| `StarPhysics.TwinStarPoint` | components/StarParticles.tsx:144-190 | the particle is its deformed point moved to its star's centre, displaced by one offset that is the same on all three axes and bounded by the turbulence |
| `StarPhysics.ParticlePosition` | components/StarParticles.tsx:122-191 | in Black Hole the particle stays within its disk radius times the expansion on x and z; in the other stages it is its deformed point at its star's centre, displaced by one offset on all axes, bounded by the turbulence |
| `StarPhysics.UndeformedStages` | components/StarParticles.tsx:146-190 | in Separated and Merged a particle is its base point scaled by radius times expansion, shifted by its star's centre on x, plus one noise value added to all three axes |
| `StarPhysics.MergedCentresCoincide` | components/StarParticles.tsx:103-106 | in Merged both centres are at the origin, so particles with the same base data land on the same point whatever their parity |
| `StarPhysics.OuterFaceUnstretched` | components/StarParticles.tsx:158-190 | in Contact an outer-face particle keeps its scaled position, with only its centre and the shared noise added |
| `StarPhysics.SeparatedScenario` | components/StarParticles.tsx:113-190 | at time 0, openness 0.5, Separated, base points (1,0,0) at index 0 and (-1,0,0) at index 1 land at x = -0.2 and x = +0.2 plus their noise term |
| `StarParticles.SetXyz` | components/StarParticles.tsx:193 | writing one stride-3 slot sets that slot to the given vector and leaves every other slot as it was |
| `StarParticles.SetBase` | components/StarParticles.tsx:46-49 | writing one stride-4 slot sets its point and phase and leaves every other slot as it was |
| `StarParticles.WriteXyz` | components/StarParticles.tsx:193 | `setXYZ` changes the buffer exactly as `SetXyz` describes |
| `StarParticles.WriteBase` | components/StarParticles.tsx:46-49 | the generator's four writes change the buffer exactly as `SetBase` describes |
| `StarParticles.ShellRadius` | components/StarParticles.tsx:28-36 | a shell particle's radius lies in [0.85, 1.0); with the cube root mapping [0, 1) into itself every radius lies in [0, 1) |
| `StarParticles.MixRatio` | components/StarParticles.tsx:52 | for a radius and jitter in [0, 1) the colour blend weight lies in [0, 1) |
| `StarParticles.BasePoint` | components/StarParticles.tsx:38-44 | with sine and cosine in [-1, 1] and valid draws, every generated base coordinate lies strictly between -1 and 1 |
| `StarParticles.ParticleColor` | components/StarParticles.tsx:51-56 | for valid draws every colour channel of the `LerpRgb` blend lies between the outside and the inside key colour |
| `StarParticles.GenerateParticles` | components/StarParticles.tsx:17-59 | fresh arrays of length 4N and 3N; slot i holds the base point and phase built from the i-th draws, and the colour blended for them |
| `StarParticles.StarField.constructor` | components/StarParticles.tsx:17-59 | the particle system holds 12000 generated particles, a zeroed position buffer of the same stride-3 size, and no rotation |
| `StarParticles.StarField.Frame` | components/StarParticles.tsx:81-200 | base data and colours are unchanged; if the points are not mounted nothing changes; otherwise every slot i < 12000 of the position buffer holds particle i's position for this stage, openness and time, and the system rotation is time times the stage's spin |
| `App.CameraTarget` | App.tsx:18-25 | the target is (0, 10, 0.1) exactly for Black Hole and (0, 2, 8) exactly for every other stage |
| `App.CameraController.constructor` | App.tsx:12-14 | the reusable target vector starts at the origin; the camera starts where the canvas places it, (0, 2, 8) (App.tsx line 117) |
| `App.CameraController.Frame` | App.tsx:16-30 | one frame sets the target for the stage and moves the camera `2 * delta` of the way toward it |
| `App.CameraStep` | App.tsx:29 | a frame of at most one second never takes any axis of the camera farther from the target |
| `App.CameraStepApproaches` | App.tsx:29 | for a frame of at most half a second every coordinate moves toward the target without overshooting it |
| `App.CameraOvershootRecedes` | App.tsx:29 | a frame longer than one second leaves every axis not already on target strictly farther from it than before, so a camera off target gets farther away |
| `App.FollowNeverRecedes` | App.tsx:16-29 | over any run of frames of at most one second each, with the stage fixed, no axis ends farther from the target than it started |
| `App.FollowFixedPoint` | App.tsx:29 | a camera at its target stays there whatever the frame times |
| `App.InitialState` | App.tsx:38-40 | the application starts in Separated, with openness 0.5 and no hand detected |
| `App.Smooth` | App.tsx:58-61 | the filter moves 30% of the way toward the reading: it stays in [0, 1] when both inputs do, leaves a repeated reading unchanged and otherwise lands strictly between the previous value and the reading |
| `App.OnGesture` | App.tsx:58-62 | a gesture update smooths openness, keeps it in [0, 1] when the old value and the reading are, takes the detection flag as reported, and keeps the stage |
| `App.SelectStage` | App.tsx:107-109 | selecting a stage changes only the stage |
| `App.UpdatesKeepState` | App.tsx:54-63 | after any series of readings in [0, 1] the openness is still in [0, 1], the stage is unchanged, and the detection flag is the latest reading's |

## Left out

- Floating point: positions, base data and colours are `Float32Array`s in the program; the model computes over exact reals and does not model single-precision rounding.
- Transcendental functions: the values of `Math.sin`, `cos`, `sqrt`, `cbrt`, `acos` are parameters; only non-negativity of the square root, the [-1, 1] range of sine and cosine, and the cube root mapping [0, 1) into [0, 1) are assumed where used.
- Randomness: `Math.random()` is replaced by a sequence of six draws per particle supplied by the caller.
- Colour management: the key colours are the hex channels divided by 255; any colour-space conversion THREE applies when parsing them is not modelled.
- Rendering: the point texture (components/StarParticles.tsx:62-79), the JSX scene graph, buffer upload, `needsUpdate`, the renderer's use of `rotation.y`, `camera.lookAt`, lights, and the user moving the camera with the orbit controls.
- The position buffer is modelled as allocated once. The JSX at components/StarParticles.tsx:209 evaluates `new Float32Array(COUNT * 3)` on every render of the component; how the renderer treats such a replacement array is not modelled, and the next frame overwrites every slot in either case.
- The gesture service (services/geminiLiveService.ts), the overlay UI (components/UIOverlay.tsx) and the asteroid field (components/AsteroidField.tsx) are not part of this model.
- `handleConnect` and `handleFullscreen` in App.tsx, and the `isConnected` flag: browser camera, fullscreen and network calls.
- CameraStepApproaches: stated only for frames of at most half a second; the program does not clamp `2 * delta`, so a longer frame overshoots the target, and a frame longer than one second moves the camera away from it (`CameraOvershootRecedes`).
- BasePoint: bounds each coordinate, not the distance from the origin, since that would need the identity sin² + cos² = 1 about the host's functions.

## Notes on the modelled behaviour

- A stage outside the four values would silently keep the default parameters in the program; with a four-valued datatype that case cannot arise, which `SelectParameters` states by never returning the defaults.
- The star of a particle is recomputed from the parity of its index on every frame, as the program does; it is not stored per particle.
- Openness readings are not clamped by the program: `Smooth` keeps openness in [0, 1] only when the readings are in [0, 1].
- The contact-stage pinch tests the stretched offset from the particle's own star centre (`|px| < 0.5`), not its distance from the neck between the stars. With the centres at ±0.8, the pinch stops 0.3 short of the neck, and a particle at the neck is never pinched (`PinchStopsShortOfNeck`).
