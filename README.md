# Cosmic view cockpit flight, modelled in Dafny

The browser demo `script.js` renders a solar system that you fly through
from a cockpit. This project models the part of the script that holds state
and changes it every frame:

- **The key latch.** The `keyboard` record has six flags and there are two
  module flags, `increasingThrottle` and `decreasingThrottle`. The
  `keydown` listener sets one of them according to `event.code` and the
  `keyup` listener clears it. This is module `Controls`, as pure functions.
  W and the up arrow drive `pitchDown`, S and the down arrow drive
  `pitchUp`, and the record's `throttleUp` and `throttleDown` fields are
  never written.
- **`updateCockpitMovement`.** This is module `Flight`, as pure functions of
  the state before the frame. Each frame:
  - it does nothing until the cockpit model has loaded;
  - it updates pitch and roll: each accelerates, decelerates or damps by
    0.9, and is clamped at ±0.03 rad per frame;
  - it turns the cockpit about its local X axis and then its local Z axis;
  - it moves the throttle by 20 % per second within [0, 100];
  - it thrusts along the nose, damps the velocity by 0.99 and moves the
    cockpit;
  - it shakes the camera by a random amount that grows with the throttle.
- **The planet lookup of `focusOnPlanet`.** This is module `Planets`. It
  searches the planets built from the `solarSystemPlanets` table by name.
- **The script's module state.** Class `CosmicView.Simulation` holds the
  module variables as fields. Its methods are the two listeners, the
  cockpit's load callback, the frame update and `focusOnPlanet`, and each
  changes the fields in place. `UpdateCockpitMovement` is proved equal to
  one `Flight.Tick` of its fields.

Two things become parameters:

- The orientation is kept as the list of local turns applied so far.
  Turning a vector into the world frame (`applyQuaternion`) is a parameter
  `toWorld`, and the only thing required of it is that it keeps lengths.
- The two `Math.random()` values of a frame are a parameter `Draws`, with
  each value in [0, 1).

Arithmetic is over the reals.

## Model

| member | source | states |
|---|---|---|
| Controls.ActionOf | script.js:323-375 | The case labels shared by both listeners, as if-and-only-if facts. KeyW/ArrowUp drive `pitchDown`, KeyS/ArrowDown drive `pitchUp`, KeyA/ArrowLeft drive `rollLeft`, KeyD/ArrowRight drive `rollRight`, ShiftLeft drives increase and ControlLeft drives decrease; every other code drives nothing. |
| Controls.PressSets | script.js:323-348 | After `keydown`, a flag is set exactly when it was set before or the key's label drives it. |
| Controls.ReleaseClears | script.js:350-375 | After `keyup`, a flag is set exactly when it was set before and the key's label does not drive it. |
| Controls.UnmappedIgnored | script.js:323-375 | A code with no case label leaves the latch unchanged on either event. |
| Controls.UnusedFieldsFixed | script.js:314-375 | `throttleUp` and `throttleDown` in the keyboard record never change on any event. |
| Controls.ReleaseUndoesPress | script.js:323-375 | If the key's flag was clear before, `keyup` after `keydown` of the same code restores the latch exactly. |
| Controls.PressIdempotent | script.js:323-348 | An auto-repeated `keydown` changes nothing after the first one. |
| Controls.LastEventWins | script.js:323-375 | For one code, press-then-release equals release alone, and release-then-press equals press alone. |
| Controls.PressesCommute | script.js:323-348 | Presses of any two codes give the same latch in either order. |
| Controls.DistinctPressReleaseCommute | script.js:323-375 | A press and a release of codes that drive different flags give the same latch in either order. |
| Flight.AxisStepBounded | script.js:383-402 | In every branch, an angular velocity within [-max, max] stays within it. |
| Flight.FirstKeyPriority | script.js:388-402 | If both keys of an axis are held, only the first counts, at any velocity. |
| Flight.AxisPriority | script.js:388-402 | Strictly inside the limits, the first key raises the velocity, with or without the opposite key. The opposite key alone lowers it. With neither key, a non-zero velocity strictly shrinks in magnitude. |
| Flight.IdleDecay | script.js:388-402 | With neither key held for n frames, the velocity is v · damping^n. |
| Flight.IdleSameSignShrinking | script.js:388-402 | Idle frames never flip the sign of the velocity and never reach zero from a non-zero value. The magnitude never grows, and it shrinks strictly after one frame or more. |
| Flight.HeldRamp | script.js:388-399 | Holding the first key of an axis for n frames gives min(max, v + n · step), whatever the opposite key does. |
| Flight.HeldRampDown | script.js:388-402 | Holding only the opposite key of an axis for n frames gives max(-max, v - n · step). |
| Flight.ThrottleStepBounded | script.js:408-415 | The throttle stays within [0, 100]. |
| Flight.ThrottleKeys | script.js:408-415 | Each key alone moves the throttle by 1/3 per frame, clamped. With no key it stays where it is. With both keys held, the increase applies first and the decrease second. |
| Flight.ThrottleRamp | script.js:408-412 | Holding ShiftLeft for n frames gives min(100, t + n/3). |
| Flight.ThrottleDrop | script.js:408-415 | Holding only ControlLeft for n frames gives max(0, t - n/3). |
| Flight.FullThrottleAfterFiveSeconds | script.js:408-412 | From 0, 300 frames (5 s at 60 fps) reach exactly 100, and 299 frames do not. |
| Flight.ThrustBound | script.js:420-421 | Every world-frame component of the thrust lies within ±throttle · 0.01. |
| Flight.VelocityComponentBounded | script.js:422-423 | One axis of `velocity += acceleration · dt; velocity *= 0.99` stays within ±1.65, the terminal speed at full throttle. |
| Flight.TickBounded | script.js:377-430 | One frame keeps both angular velocities within ±0.03, the throttle within [0, 100] and each velocity component within ±1.65. |
| Flight.RunBounded | script.js:377-430 | Any number of frames keeps those bounds, with any key events between the frames. |
| Flight.TickMoves | script.js:404-429 | The cockpit moves by exactly its new velocity. The orientation gains a pitch turn and then a roll turn by the new angular velocities. The camera's Z does not shake. |
| Flight.CoastAtZeroThrottle | script.js:420-423 | When the throttle is 0 after the frame, the acceleration is zero and the velocity is only damped by 0.99. |
| Flight.ShakeBounded | script.js:427-429 | One frame moves the camera by at most 0.05 · throttle/100 along X and along Y, and not along Z. |
| Flight.ShakeOffsetBounded | script.js:428 | A draw in [0, 1) gives an offset within ±0.05 · throttle/100. |
| Flight.RunPitch | script.js:388-394 | Over frames that share their pitch keys, the pitch velocity follows its axis alone, whatever the other keys do. |
| Flight.RunRoll | script.js:396-402 | Over frames that share their roll keys, the roll velocity follows its axis alone, whatever the other keys do. |
| Flight.RunThrottle | script.js:408-415 | Over frames that share their throttle keys, the throttle follows its keys alone, whatever the other keys do. |
| Flight.IdlePitch | script.js:388-394 | With no pitch key in any frame, the pitch velocity after n frames is v · 0.9^n and shrinks strictly towards zero without reaching it. |
| Flight.IdleRoll | script.js:396-402 | With no roll key in any frame, the roll velocity after n frames is v · 0.9^n and shrinks strictly towards zero without reaching it. |
| Flight.FullPitchSwing | script.js:388-391 | Holding S for 36 frames takes the pitch velocity from -0.03 to exactly +0.03, whether W is held throughout or not. |
| Planets.CreatePlanets | script.js:90-96 | One planet per table entry, in table order, each built from its own entry. |
| Planets.FindByName | script.js:251 | `planets.find` by name returns the first planet with the name. It returns nothing exactly when no planet has the name. |
| Planets.FindOwnName | script.js:250-252 | If names are distinct, looking up a planet's own name finds that planet. |
| Planets.SolarSystemNamesDistinct | script.js:68-77 | The table has eight planets with eight different names. |
| Planets.SolarSystemLookup | script.js:68-96 | "Earth" is found at index 2 and "Neptune" at index 7. "Sun" is not found: the sun is loaded separately and is not among the planets. |
| CosmicView.Simulation.constructor | script.js:7-14 | At start-up every key flag is clear, nothing moves, the throttle is 0, there is no cockpit and no focused planet, and the planets are built from the table. |
| CosmicView.Simulation.KeyDown | script.js:323-348 | The latch becomes `Press` of the old latch and the code, and nothing else changes. |
| CosmicView.Simulation.KeyUp | script.js:350-375 | The latch becomes `Release` of the old latch and the code, and nothing else changes. |
| CosmicView.Simulation.LoadCockpit | script.js:285-294 | After the load callback the frame update runs, with the cockpit in its loaded pose at the origin and the camera at its pivot. |
| CosmicView.Simulation.UpdateCockpitMovement | script.js:377-430 | Nothing changes until the cockpit has loaded. After that, the new state is exactly one `Flight.Tick` of the old state and the keys, and every bound is kept. |
| CosmicView.Simulation.Steer | script.js:388-405 | Each angular velocity takes its axis step, then the cockpit turns about X by the new pitch and about Z by the new roll. |
| CosmicView.Simulation.AdjustThrottle | script.js:410-415 | The throttle takes the clamped increase and then the clamped decrease, each only while its key is held. |
| CosmicView.Simulation.Propel | script.js:420-424 | The acceleration is the world-frame thrust times dt. The velocity is the damped sum of the old velocity and the acceleration. The position moves by the new velocity. |
| CosmicView.Simulation.ShakeCamera | script.js:427-429 | The camera's X and Y each gain the offset of their own draw. |
| CosmicView.Simulation.FocusOnPlanet | script.js:250-258 | Reports whether a planet has the name. If one does, a planet with that name becomes the focus. If none does, the focus and the camera stay as they were. |

## Left out

- Scene, renderer, lights, bloom composer, skybox, Saturn's rings and orbit lines: rendering set-up only, with no state the core reads.
- Model loading (`GLTFLoader`) and its error callbacks: only the effect of the cockpit's load callback on the state is modelled.
- motionBlurShader.js is not part of this model: it is a shader description with no state.
- The planets' orbit animation in `animate`, and the random starting angle and position of each planet: these use `Math.random`, `Math.sin` and `Math.cos`, which are not modelled over the reals.
- `requestAnimationFrame`: the frame loop is modelled as `Flight.Run` over a sequence of frames. Each frame carries the latch the key listeners left behind since the previous frame.
- The throttle text of the HUD: it only displays the throttle.
- Quaternion arithmetic: `toWorld` is a parameter required only to keep lengths, so no property depends on a particular orientation.
- IEEE-754 double rounding: all arithmetic is exact over the reals.
- Flight.TickBounded: the velocity bound is stated per component (each within ±1.65), which is weaker than a bound on the velocity's length.
- Flight.RunBounded: the same per-component velocity bound as `TickBounded`.
- CosmicView.Simulation.FocusOnPlanet: camera placement near the planet and the `orbitMessage` element are not modelled. Both depend on `Date.now`, trigonometry and the DOM. When a planet is found the camera may change, but its new position is left unconstrained. The "not found" log is reduced to the returned `false`.
- CosmicView.Simulation.LoadCockpit: the cockpit's scale of 20 and its half-turn about Y are part of its loaded pose. The orientation counts only the turns applied after loading.
- The camera shake follows the code, not a design with a bounded shake. Each frame adds its offset to the camera's previous position, without a clamp, so only the per-frame step is bounded (`Flight.ShakeBounded`).
- Yaw, braking, a separate speed variable and camera lean or look: `script.js` has none of these.
