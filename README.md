# baseball-pitchfx-3d: the animation core in Dafny

The program draws a baseball field and replays tracked pitches (PITCHf/x telemetry)
in 3-D. Around the WebGL rendering sits a small animation core. This project models
that core and proves properties of it:

- **Unit conversion** (`units.dfy`): `feetToMeters`, `convertFeetVal` and `degToRad`
  of `src/core.ts`.
- **Pitch trajectory** (`trajectory.dfy`): the constructor of `Pitch` in `src/pitch.ts`
  turns telemetry from feet into metres. It then computes the flight time to the front
  of home plate in closed form, using the negative square root of
  `vy0² + 2·ay·(1.417·0.3048 − y0)`. That root is a real witness `e ≤ 0` with `e·e`
  equal to the discriminant. At that time the along-track position polynomial lands
  exactly on the plate-front plane.
- **Pitch playback** (`playback.dfy`): `restart` and `animate` of `Pitch` in
  `src/pitch.ts`. `animate` is a state machine: the first frame only records the
  clock; then the ball flies; then it is clamped at the plate with `pathDone`; and once
  a frame gap exceeds `1000 + pitchTime` the pitch reports `isDone`. The class `Pitch`
  updates its fields in place. Each method is proved against the pure transition
  function on the `PitchState` value (`Launch`, `Restarted`, `Step`).
- **Sequence controller** (`sequencer.dfy`): `Matchup` of `src/matchup.ts`. It plays
  the pitch displays one per frame and hands the strike-zone overlay from a finished
  pitch to the next. At the end it loops back to the first pitch or freezes on the
  last one. `restartTimeout(ms)` can defer the re-enable of animation.
- **Older sequence controller** (`legacy_sequencer.dfy`): `Matchup` of
  `src/webgl-matchup.ts`. It has the same hand-off, never loops, and simply clears
  the last pitch's overlay. Its pitch objects are modelled abstractly (see Left out).
- **Early linear-motion ball** (`legacy_ball.dfy`): `Pitch` of `src/webgl-pitch.ts`.
  It has coordinate, speed and rotation setters. Its `animate` moves the ball, holds
  it at the plate for under a second, or resets it to where it started. The file also
  holds that module's 60-band sphere tables.
- **Sphere tables** (`sphere.dfy`): the nested loops shared by the early ball
  (60 bands) and the `Baseball` mesh (30 bands). The integer index list is modelled
  exactly, with its length and index bound. The texture coordinates are modelled
  exactly. The normal and position arrays are modelled by their lengths.
- **Mesh tables** (`meshes.dfy`): the vertex and colour arrays of the field polygons of
  `src/objects.ts`, with the per-vertex colour loops and the count getters, and the
  `Baseball` mesh's index count and index buffer.

Clock readings are an explicit `now: int` in milliseconds. All physics is exact `real`
arithmetic. Each stateful class has a pure value-level counterpart. The properties are
proved as lemmas about that counterpart, and each method's postcondition ties the
object's new state to it.

## Model

| member | source | states |
|---|---|---|
| Units.FeetToMeters | src/core.ts:65-67 | the result divided by 0.3048 gives back the input; zero and sign are preserved |
| Units.ConvertFeetVal | src/core.ts:69-71 | convertFeetVal agrees with feetToMeters on every input |
| Units.ConvertFeetValPreservesOrder | src/core.ts:69-71 | the conversion preserves and reflects strict order and equality |
| Units.DegToRad | src/core.ts:34-36 | radians·180 = degrees·π, and the sign is kept |
| Units.DegToRadLinear | src/core.ts:34-36 | the conversion is additive and scales with its argument; a half turn more is π radians more |
| Trajectory.ToKinematics | src/pitch.ts:113-121 | every position, velocity and acceleration coefficient is the telemetry value converted from feet |
| Trajectory.Displacement | src/pitch.ts:181-186 | the per-axis position at t = 0 is the release coordinate |
| Trajectory.PositionAt | src/pitch.ts:181-186 | the ball position at t = 0 is the release point |
| Trajectory.Discriminant | src/pitch.ts:129-130 | the radicand vy0² + 2·ay·(plate front − y0); SpeedAtPlate states that it is the square of the along-track speed at the plate |
| Trajectory.SpeedAtPlate | src/pitch.ts:129-130 | at any time the y polynomial reaches the plate front, (vy0 + ay·t)² equals the discriminant |
| Trajectory.IsEndSpeed | src/pitch.ts:129-130 | endSpeed is the non-positive square root of the discriminant, with ay ≠ 0; one exists only when the discriminant is non-negative |
| Trajectory.PitchTime | src/pitch.ts:131 | the along-track velocity vy0 + ay·pitchTime is endSpeed; ReachesPlate and FlightTimePositive state where and when the ball arrives |
| Trajectory.ReachesPlate | src/pitch.ts:129-131 | with a valid end speed, the y polynomial at t = pitchTime equals 1.417·0.3048 exactly |
| Trajectory.FlightTimePositive | src/pitch.ts:129-131 | with vy0 < 0, ay > 0 and y0 beyond the plate front, pitchTime > 0 |
| Trajectory.DemoFastballArrives | src/pitch.ts:127-131 | for a concrete fastball record, positive flight time and arrival on the plate-front plane |
| Playback.Launch | src/pitch.ts:113-135 | after construction: converted coefficients, ball at the release point, elapsed 0, lastTime 0, all three flags false, and the flight time leads to the plate |
| Playback.Restarted | src/pitch.ts:155-166 | restart(s) returns the ball to the release point, zeroes elapsedTime and lastTime, clears pathDone and isDone, and sets showStrikeZone to s |
| Playback.Step | src/pitch.ts:168-202 | animate keeps the coefficients and the overlay flag and never clears pathDone or isDone; a first frame only records lastTime; a later frame adds the milliseconds since lastTime, in seconds, to elapsedTime, clamped at pitchTime, records now as lastTime except on a clamped frame that came no more than 1000 + pitchTime milliseconds after lastTime, which keeps the old lastTime, and puts the ball at the trajectory point for the new elapsedTime |
| Playback.LaunchCoherent | src/pitch.ts:113-135 | the constructed state satisfies the playback invariant |
| Playback.RestartForgetsHistory | src/pitch.ts:155-166 | restart yields the same state whatever happened before, and that state is coherent |
| Playback.RestartRecoversLaunch | src/pitch.ts:155-166 | restart(false) on a constructed pitch gives back exactly the constructed state |
| Playback.StepCoherent | src/pitch.ts:173-186 | with now ≥ lastTime, animate keeps the ball on the trajectory, keeps elapsedTime in [0, pitchTime], and pins a finished path to pitchTime |
| Playback.PathDoneOnPlate | src/pitch.ts:175-184 | once pathDone holds, ballY is exactly the plate-front distance |
| Playback.StepFlagsRaisedOnlyBy | src/pitch.ts:173-191 | pathDone is newly set exactly when the accumulated time passes pitchTime; isDone exactly when the gap exceeds 1000 + pitchTime |
| Playback.HoldAtPlate | src/pitch.ts:175-195 | after pathDone, frames within 1000 + pitchTime of lastTime change nothing, so lastTime stays and the gap grows |
| Playback.DoneAfterHold | src/pitch.ts:188-191 | a frame whose gap exceeds 1000 + pitchTime sets isDone |
| Playback.Pitch.constructor | src/pitch.ts:113-139 | the object's state equals Launch, and the strike-zone bounds are the converted sz_bot and sz_top |
| Playback.Pitch.Restart | src/pitch.ts:155-166 | the new state is Restarted of the old one, and the invariant is kept |
| Playback.Pitch.Animate | src/pitch.ts:168-202 | the new state is Step of the old one, and the invariant is kept |
| Sequencer.Loaded | src/matchup.ts:59-67 | setPitches makes one freshly constructed display per record, in input order, with index 0 and no overlay shown |
| Sequencer.Rewound | src/matchup.ts:83-88 | index 0, every display restarted with overlay = (count == 1), the other flags kept, and the overlay invariant holds |
| Sequencer.Ticked | src/matchup.ts:140-158 | a tick keeps the number of displays and the loop and started flags; paused or exhausted, it changes nothing |
| Sequencer.HandedOff | src/matchup.ts:146-157 | the hand-off keeps the number of displays and a non-negative index |
| Sequencer.SequenceEnded | src/matchup.ts:151-157 | the end of the sequence keeps the number of displays and a non-negative index |
| Sequencer.HandOffKeepsZoneAtCurrent | src/matchup.ts:146-157 | the hand-off keeps 0 ≤ index ≤ length and the overlay at the current pitch only |
| Sequencer.TickKeepsZoneAtCurrent | src/matchup.ts:140-158 | every tick keeps 0 ≤ index ≤ length, and no pitch other than min(index, length−1) shows its overlay |
| Sequencer.TickStepsOnlyCurrent | src/matchup.ts:141-150 | outside a wrap-around, a tick animates only the current pitch, changes other pitches at most in the next one's overlay flag, and raises the index by at most 1 |
| Sequencer.TickHandsOverZone | src/matchup.ts:144-150 | the playing pitch shows the overlay; on finishing, its overlay goes off and the next pitch's goes on |
| Sequencer.TickWrapsAround | src/matchup.ts:151-153 | with loop on, finishing the last pitch restarts every pitch, resets the index to 0 and keeps animating |
| Sequencer.WrapHidesAllZones | src/matchup.ts:146-153 | on the wrap-around frame of two or more pitches, no overlay is shown |
| Sequencer.TickShowsExactlyOneZone | src/matchup.ts:144-156 | on every other frame that steps a pitch, exactly one pitch shows its overlay |
| Sequencer.TickFreezesOnLast | src/matchup.ts:154-156 | with loop off, finishing the last pitch leaves index = length with the last overlay on and earlier pitches untouched |
| Sequencer.ExhaustedStaysFrozen | src/matchup.ts:140-141 | once index = length, any number of later ticks changes nothing |
| Sequencer.RunKeepsZoneAtCurrent | src/matchup.ts:135-163 | the index bound and the overlay invariant hold across any number of frames |
| Sequencer.RelaunchRestartsAll | src/matchup.ts:83-96 | restartTimeout resets the index to 0 and restarts every display with overlay = (count == 1); animate is true without a delay, false with one, and true once the timer fires |
| Sequencer.FirstRelaunchStartsFrames | src/matchup.ts:98-101 | the first restartTimeout starts the frame loop: with a delay its first frame changes nothing, without one it steps the first pitch |
| Sequencer.RelaunchKeepsZoneAtCurrent | src/matchup.ts:83-101 | every restart leaves a well-indexed state with the overlay invariant |
| Sequencer.Relaunched | src/matchup.ts:83-102 | restartTimeout keeps the display count and the loop flag, marks the frame loop started, sets animate exactly when there is no delay, and on a later call rewinds to index 0 with every display restarted; RelaunchRestartsAll and FirstRelaunchStartsFrames state the rest |
| Sequencer.Resumed | src/matchup.ts:93-95 | the deferred callback turns animate on and changes nothing else, so it keeps the single-overlay invariant |
| Sequencer.Matchup.constructor | src/matchup.ts:31-39 | no displays, index −1, animating, looping, frame loop not started |
| Sequencer.Matchup.Initialize | src/matchup.ts:55 | only the loop flag changes |
| Sequencer.Matchup.SetPitches | src/matchup.ts:59-67 | the displays are fresh objects and the state equals Loaded of the old one |
| Sequencer.Matchup.Restart | src/matchup.ts:79-81 | the same as restartTimeout without a delay |
| Sequencer.Matchup.RestartTimeout | src/matchup.ts:83-102 | the new state is Relaunched of the old one, including the first frame when the loop starts |
| Sequencer.Matchup.Rewind | src/matchup.ts:84-88 | animate off, index 0, and every display restarted |
| Sequencer.Matchup.RestartDisplays | src/matchup.ts:86-88 | every display's new state is its restarted old state with the given overlay flag |
| Sequencer.Matchup.TimerFired | src/matchup.ts:93-95 | the deferred callback only turns animate on |
| Sequencer.Matchup.Tick | src/matchup.ts:135-163 | the new state is Ticked of the old one |
| Sequencer.Matchup.HandOff | src/matchup.ts:146-158 | the new state is HandedOff of the old one |
| Sequencer.Matchup.MoveOn | src/matchup.ts:147-148 | the finished pitch's overlay goes off and the index advances by one |
| Sequencer.Matchup.EndSequence | src/matchup.ts:151-157 | the new state is SequenceEnded of the old one |
| Sequencer.Matchup.AnimateDisplay | src/matchup.ts:143 | only display k changes, by one Step |
| Sequencer.Matchup.SetZone | src/matchup.ts:144 | only display k's overlay flag changes |
| LegacySequencer.Records | src/webgl-matchup.ts:53-59 | an array yields its elements in order; a single record yields a one-element list |
| LegacySequencer.Loaded | src/webgl-matchup.ts:49-60 | setData: index 0, animate unchanged, one new pitch per record in order |
| LegacySequencer.Rewound | src/webgl-matchup.ts:62-69 | restart: index 0, animate true, every pitch restarted |
| LegacySequencer.Ticked | src/webgl-matchup.ts:102-115 | a tick keeps the number of pitches and the pause flag, and the index stays non-negative |
| LegacySequencer.HandedOff | src/webgl-matchup.ts:108-114 | the hand-off raises the index by exactly one |
| LegacySequencer.LoadedOnePerRecord | src/webgl-matchup.ts:49-60 | an array gives one pitch per element in order, a single record exactly one; the index is 0 and no overlay is shown |
| LegacySequencer.RestartRestartsAll | src/webgl-matchup.ts:62-69 | after restart: index 0, animate true, every pitch unfinished with its record kept, and no overlay shown |
| LegacySequencer.TickIdleChangesNothing | src/webgl-matchup.ts:102-103 | paused, or with index ≥ length, a tick changes nothing |
| LegacySequencer.TickStepsOnlyCurrent | src/webgl-matchup.ts:102-114 | a tick sets the current pitch's isDone to the frame's outcome, changes every other pitch at most in its overlay flag (and only the next one at all), keeps every record, and raises the index by at most 1, never beyond length |
| LegacySequencer.TickHandsOverZone | src/webgl-matchup.ts:104-113 | the playing pitch shows the overlay; on finishing it is cleared, the index advances, and the next pitch, if any, shows it |
| LegacySequencer.TickKeepsZoneAtCurrent | src/webgl-matchup.ts:102-115 | every tick keeps 0 ≤ index ≤ length, and no pitch but the current one shows its overlay |
| LegacySequencer.LastPitchEndsSequence | src/webgl-matchup.ts:108-114 | finishing the last pitch leaves index = length with no overlay shown |
| LegacySequencer.ExhaustedStaysFrozen | src/webgl-matchup.ts:103 | past the last pitch, no number of frames changes anything: there is no loop |
| LegacySequencer.RunKeepsZoneAtCurrent | src/webgl-matchup.ts:99-119 | the overlay invariant holds across any number of frames |
| LegacySequencer.RunIndexMonotone | src/webgl-matchup.ts:108-114 | over any run of frames the index never decreases and never passes length |
| LegacySequencer.Pitch.constructor | src/webgl-matchup.ts:55 | a new pitch object is unfinished with its overlay off |
| LegacySequencer.Pitch.Restart | src/webgl-matchup.ts:66 | restart clears isDone and the overlay and keeps the record |
| LegacySequencer.Pitch.Animate | src/webgl-matchup.ts:105 | animate sets isDone to the frame's outcome and changes nothing else |
| LegacySequencer.Matchup.constructor | src/webgl-matchup.ts:37-40 | no pitches, index −1, animating |
| LegacySequencer.Matchup.SetData | src/webgl-matchup.ts:49-60 | the pitches are fresh objects and the state equals Loaded of the old one |
| LegacySequencer.Matchup.Restart | src/webgl-matchup.ts:62-69 | the new state is Rewound of the old one |
| LegacySequencer.Matchup.Tick | src/webgl-matchup.ts:99-119 | the new state is Ticked of the old one, and the overlay invariant is kept |
| LegacySequencer.Matchup.HandOff | src/webgl-matchup.ts:108-114 | the new state is HandedOff of the old one |
| LegacyBall.WithCoords | src/webgl-pitch.ts:82-90 | setBallCoords sets the current and original position to the same triple and changes nothing else |
| LegacyBall.WithSpeed | src/webgl-pitch.ts:92 | setBallSpeed changes only the speed |
| LegacyBall.WithRotation | src/webgl-pitch.ts:94 | setBallRotation changes only the rotation |
| LegacyBall.Advance | src/webgl-pitch.ts:96-126 | animate never changes the original position, speed or rotation; lastTime either stays or becomes now |
| LegacyBall.InitialAtHome | src/webgl-pitch.ts:49-61 | construction puts the ball and its original position at (0, 2, −15.24), with speed 40.2336 and lastTime 0 |
| LegacyBall.FirstFrameOnlyRecords | src/webgl-pitch.ts:99-119 | with lastTime 0, animate only records now and leaves the position unchanged |
| LegacyBall.FlightStep | src/webgl-pitch.ts:102-105 | in flight, z gains speed·elapsed/1000, y loses 0.07 and x gains 0.01; with positive speed and time moving forward, z strictly increases |
| LegacyBall.HoldKeepsEverything | src/webgl-pitch.ts:106-109 | at the plate, a frame under 1000 ms after lastTime changes nothing, lastTime included |
| LegacyBall.ResetReturnsHome | src/webgl-pitch.ts:110-119 | at the plate, a frame 1000 ms or more after lastTime resets the ball to the original position and records now |
| LegacyBall.ResetGoesToSetCoords | src/webgl-pitch.ts:82-119 | after setBallCoords and any number of frames, a reset at the plate returns the ball to the coordinates last set |
| LegacyBall.RunKeepsSetup | src/webgl-pitch.ts:96-126 | no number of frames changes the original position, speed or rotation |
| LegacyBall.HeldAtPlate | src/webgl-pitch.ts:106-109 | a landed ball stays exactly as it is through any run of frames within a second of lastTime |
| LegacyBall.HoldThenReset | src/webgl-pitch.ts:106-119 | a landed ball is held through frames under a second, then reset by the first frame after it |
| LegacyBall.BuildSphere | src/webgl-pitch.ts:299-341 | 3·61·61 normal and position numbers, 2·61·61 texture numbers, and 6·60·60 = 21600 indices, each < 61·61 and < 65536 |
| LegacyBall.Pitch.constructor | src/webgl-pitch.ts:43-65 | the object's state is the initial ball |
| LegacyBall.Pitch.SetBallCoords | src/webgl-pitch.ts:82-90 | the new state is WithCoords of the old one |
| LegacyBall.Pitch.SetBallSpeed | src/webgl-pitch.ts:92 | the new state is WithSpeed of the old one |
| LegacyBall.Pitch.SetBallRotation | src/webgl-pitch.ts:94 | the new state is WithRotation of the old one |
| LegacyBall.Pitch.Animate | src/webgl-pitch.ts:96-126 | the new state is Advance of the old one |
| Sphere.Cell | src/webgl-pitch.ts:330-339 | six indices starting at latNum·(long+1)+longNum and forming the two triangles (first, second, first+1) and (second, second+1, first+1), with second one row below first |
| Sphere.RowCellsLength | src/webgl-pitch.ts:329-340 | one row of cells emits 6 indices per cell |
| Sphere.GridLength | src/webgl-pitch.ts:328-341 | the index loop emits 6·lat·long indices |
| Sphere.CellBelow | src/webgl-pitch.ts:330-339 | every index of a cell in row r is below (r+2)·(long+1) |
| Sphere.RowCellsBelow | src/webgl-pitch.ts:329-340 | every index of row r is below (r+2)·(long+1) |
| Sphere.GridBelow | src/webgl-pitch.ts:328-341 | every index of the first rows names one of the vertices of those rows and the row below them |
| Sphere.Indices | src/webgl-pitch.ts:328-341 | the nested index loop produces exactly the grid table, with 6·lat·long entries, each below the vertex count |
| Sphere.FractionComplementInUnit | src/webgl-pitch.ts:312-313 | the texture coordinate 1 − n/bands lies in [0, 1] |
| Sphere.TexRowShape | src/webgl-pitch.ts:304-325 | a row of vertices has two texture coordinates each, all in [0, 1] |
| Sphere.TexGridShape | src/webgl-pitch.ts:299-326 | the whole texture array has 2·(rows)·(long+1) coordinates, all in [0, 1] |
| Sphere.VertexArrays | src/webgl-pitch.ts:299-326 | the vertex loop pushes 3 normal, 2 texture and 3 position numbers per vertex of the (lat+1)·(long+1) grid, with the texture coordinates (1 − longNum/long, 1 − latNum/lat) in order, all in [0, 1] |
| Sphere.Mesh | src/objects.ts:211-254 | both sphere loops: the array lengths for (lat+1)·(long+1) vertices and 6·lat·long indices, each naming a vertex |
| Meshes.VertexColor | src/objects.ts:175-180 | the per-vertex colour has four components |
| Meshes.TileShape | src/objects.ts:83-88 | pushing a colour n times gives 4n numbers, the one at position i being component i mod 4 |
| Meshes.VertexCounts | src/objects.ts:40 | getVerticesCount is 6 for Diamond, Infield and Base, 12 for Outfield, 9 for HomePlate, 6 for PitchingRubber and StrikeZone; every vertex list has a length divisible by 3 |
| Meshes.ColorsMatchVertices | src/objects.ts:40-42 | every shape except Diamond has getColorCount = getVerticesCount; Diamond has no colours |
| Meshes.VerticesCountOf | src/objects.ts:40 | the count times the vertex size (3) is the number of vertex coordinates; VertexCounts states it per shape |
| Meshes.ColorCountOf | src/objects.ts:42 | the count times the colour size (4) is the number of colour components; ColorsMatchVertices relates it to the vertex count |
| Meshes.Polygon.VerticesCount | src/objects.ts:40 | getVerticesCount of a polygon: three times it is the length of its vertex list |
| Meshes.Polygon.ColorCount | src/objects.ts:42 | getColorCount of a polygon: four times it is the length of its colour list |
| Meshes.PerVertexColor | src/objects.ts:83-88 | in a looping shape every vertex gets the same four components |
| Meshes.StrikeZoneGeometry | src/objects.ts:166-180 | every strike-zone vertex has x = ±0.216, y = 0.432 and z in {top, bottom}; its 24 colour numbers are white with alpha 0.25 |
| Meshes.Polygon.constructor | src/objects.ts:45-186 | every polygon's vertices and colours equal its table; the colour loops push exactly the tiled colour |
| Meshes.Polygon.PushColors | src/objects.ts:83-88 | the colour loop runs once per vertex and leaves exactly the shape's colour tiled once per vertex |
| Meshes.Baseball.constructor | src/objects.ts:195-278 | indexDataSize = 6·30·30 = 5400 entries are uploaded, each < 961 = 31·31 so it names an existing vertex and fits Uint16 |
| Meshes.Baseball.IndexDataSize | src/objects.ts:302 | getIndexDataSize is the number of entries in the element buffer, 5400 by the constructor |

## Left out

- WebGL calls are not modelled: shaders, buffers, textures, uniforms and draw calls. They are foreign graphics API calls. This covers `draw`, `setTexture`, `setBuffers` and the bind methods, and the files src/field.ts, src/webgl-field.ts, src/strikezone.ts and src/shaders.ts.
- gl-matrix transforms are not modelled: the ball rotation matrices, the camera presets and `getScaleSize`/`getHeight`. They are library matrix math and trigonometry. The rotation setting `ballDegRot` is kept as a field only for the early ball (`LegacyBall`); in src/pitch.ts (lines 41, 105, 199) it only feeds the rotation matrix and is left out with it.
- Sphere vertex positions and normals are sines and cosines. Only their array lengths are modelled.
- The wall clock (`new Date().getTime()`), `window.requestAnimationFrame` and `setTimeout` are host primitives. The clock becomes the parameter `now`. Each frame is one call of `Tick`, and the deferred re-enable of `restartTimeout(ms)` is the separate event `TimerFired`.
- A timer that fires after a later restart still turns animate on, as in the source. Timers cannot be cancelled, and the model does not track pending timers.
- src/webgl-core.ts, the DOM, canvas creation, src/index.ts and demo/demo.ts are not part of this model; they are host wiring and GL set-up.
- IEEE doubles, `Math.sqrt` and `Math.pow` are not modelled. Arithmetic is exact `real`, and the end speed is a real witness `e ≤ 0` whose square is the discriminant.
- Playback.Pitch.constructor: requires a valid end speed (ay ≠ 0 and a non-negative discriminant). For other inputs the source computes NaN or Infinity for pitchTime, which is IEEE behaviour.
- Playback.Step: the hold test at src/pitch.ts:188 compares a gap in milliseconds with 1000 plus a flight time in seconds. It is modelled as written.
- The outcome-colour branch of `Pitch.draw` (src/pitch.ts:224-237) is rendering and is not modelled.
- Sequencer.Matchup.Tick: requires that the frame loop has started. `tick` is private and only reached from `restartTimeout`, which sets the index to 0 first.
- Sequencer.Matchup.constructor: the source leaves the display list undefined until `setPitches`. The model starts with an empty list and runs `restartTimeout` before `setPitches` on the empty list, where the source throws a `TypeError` (src/matchup.ts:86).
- The pitch displays of src/matchup.ts come from src/pitch_display.ts, which is not part of this model. They are modelled by the `Pitch` of src/pitch.ts, which has the same `restart(show)`, `animate()`, `isDone` and `showStrikeZone` interface.
- LegacySequencer.Matchup.Tick: requires pitchIndex ≥ 0, that is, `setData` before the first frame. A tick on a freshly constructed controller would read `pitches[-1]` and throw; the host always loads data first.
- The pitch objects of src/webgl-matchup.ts are not the ball of src/webgl-pitch.ts, which lacks `restart`, `isDone` and `showStrikeZone`. They are modelled abstractly as assumptions:
  - a new pitch is unfinished with its overlay off;
  - `restart()` clears `isDone` and the overlay, as `restart(false)` does in src/pitch.ts;
  - `animate()`'s effect on `isDone` is an input of each frame.
- The `data` field that `setData` stores in src/webgl-matchup.ts is never read by the core and is not modelled.
- `console.log` in the early ball's `animate` is output only.
- The helper methods of the controllers are not methods in the source. They split the bodies of `tick`, `restartTimeout` and `restart` statement for statement, so that each piece is proved separately: `Rewind`, `RestartDisplays`, `HandOff`, `MoveOn`, `EndSequence`, `AnimateDisplay` and `SetZone`. Likewise `Polygon.PushColors` is the colour loop written inline in four constructors of src/objects.ts.
- Sphere.Mesh: states the array lengths and index bounds but not the table contents, which `Sphere.VertexArrays` and `Sphere.Indices` state. Callers with fixed band counts then need not unfold the recursive tables.
