# Knight Rider scanner page, modelled in Dafny

A model of the logic inside `knight_rider_web/script.js`, the page that draws a
turning wireframe car with a red light sweeping across its nose and plays a
pulsing tone. It has two buttons, power and sound. The page is mostly canvas
drawing and Web Audio set-up. This model covers its pure logic:

- `scanner.dfy` (module `Scanner`) models the sweeping light. Its position moves
  0.15 per drawn frame and reverses once it is strictly outside [-1, 1]. The
  light's centre is 25 times the position, and the lit segment is 8 wide.
  Positions are exact reals.
- `control.dfy` (module `Control`) models `togglePower` and `toggleSound`. Each
  one is a pure function that returns the new flags and the audio commands it
  issues (`Start` for `startSound`, and `Stop` for a `stopSound` whose gain-node
  guard passes). The `gainNode` guard is modelled as it is written: once a tone
  has been started, nothing clears it again.
- `audio.dfy` (module `Audio`) models the tone's sources, numbered by
  generation. `stopSound` ramps the gain of the current sources down and
  schedules a callback. 200 ms later the callback stops whatever sources the
  module variables `oscillator` and `lfo` hold at that moment. After a quick
  power-off and power-on these are the new sources, not the ramped-down ones.
  Here that callback is a pending event that fires later. The ramp alone does not silence a tone: the
  1.5 Hz modulator keeps adding up to 0.3 to the gain, so ramped-down sources
  go on sounding as a pulse until they are stopped. The file models the
  callback as written and a corrected version (see Findings).
- `wireframe.dfy` (module `Wireframe`) holds the car's 24 vertices and
  43 edges, copied from the page's tables.
- `projection.dfy` (module `Projection`) models `project`. Cosine and sine are
  abstract reals in [-1, 1]. The module covers every point the page projects:
  the ground grid, the car's edges, the wheel outlines and the scanner.
- `scene.dfy` (module `Scene`) models `draw()` and the page's inputs. These
  are button clicks and frames delivered by the browser. The module tracks the
  rotation angle, the scanner and the pending animation frame.

The code does not clamp the scanner. From the start (position 0, moving
right), the light reaches 1.05 on frame 7 and only turns there. The sweep
repeats every 28 frames.

## Model

| member | source | states |
|---|---|---|
| Scanner.Step | knight_rider_web/script.js:192-195 | the new position is the old one plus 0.15 times the direction; the direction changes if and only if the new position is above 1 or below -1 |
| Scanner.StepPreservesInv | knight_rider_web/script.js:192-195 | one frame keeps the sweep invariant: the position is within [-1.15, 1.15], and whenever it is outside [-1, 1] the direction already points back inside |
| Scanner.RunInv | knight_rider_web/script.js:24-26 | every state reachable from the initial position 0, moving right, satisfies the sweep invariant |
| Scanner.RunIsSweep | knight_rider_web/script.js:192-195 | frame-by-frame stepping from the start agrees on every frame with a closed-form triangle wave of whole steps 0..7..-7..0 |
| Scanner.RunPeriodic | knight_rider_web/script.js:192-195 | the sweep returns to its initial state after 28 frames and repeats with period 28 |
| Scanner.ReturnsAfterPeriod | knight_rider_web/script.js:192-195 | every state the sweep reaches from the start comes back after another 28 frames of stepping |
| Scanner.RunExtremes | knight_rider_web/script.js:192-195 | from the start the position always stays within [-1.05, 1.05]; it is 1.05 exactly on frames 7 mod 28 and -1.05 exactly on frames 21 mod 28; these are the only frames where it is outside [-1, 1], and at both the direction has already reversed |
| Scanner.OvershootAtSeven | knight_rider_web/script.js:24-26 | there is no clamping: after 7 frames the light is at 1.05 moving left, and it was never out of range before that |
| Scanner.LightBounds | knight_rider_web/script.js:205-209 | under the sweep invariant, the lit segment from centre-4 to centre+4 lies within plus or minus 25*1.15+4 |
| Scanner.RunLightBounds | knight_rider_web/script.js:199-209 | from the start the lit segment stays within plus or minus 30.25 and reaches 30.25 on frame 7, past the housing ends at plus or minus 25 |
| Control.StartSound | knight_rider_web/script.js:245-264 | has no guard: always issues exactly one Start, after which the tone is live and the gain node is assigned; the two flags are untouched |
| Control.StopSound | knight_rider_web/script.js:266-274 | issues a Stop if and only if a gain node has ever been assigned, never a Start; never clears the gain node, so the guard passes on every later call; the tone is no longer live after a Stop |
| Control.TogglePower | knight_rider_web/script.js:276-295 | flips isRunning and leaves isSoundOn alone; issues Start exactly when it enters running with sound on; issues Stop exactly on a power-off after a gain node exists; issues at most one command; afterwards a gain node exists exactly if one existed before or a Start was issued, so it is never cleared |
| Control.ToggleSound | knight_rider_web/script.js:297-306 | flips isSoundOn and leaves isRunning alone; issues Start exactly when it enters running with sound on; issues Stop exactly on a sound-off after a gain node exists; afterwards a gain node exists exactly if one existed before or a Start was issued, so it is never cleared |
| Control.ToggleTwice | knight_rider_web/script.js:276-306 | pressing the same button twice restores both flags |
| Control.ReachableInv | knight_rider_web/script.js:276-306 | after any presses from page load, the tone is started and not stopped exactly when running with sound on, and a live tone always has its gain node |
| Control.StartsAlternate | knight_rider_web/script.js:276-306 | after any presses from page load, the commands never contain two Starts without a Stop between them |
| Control.RepeatedStop | knight_rider_web/script.js:266-274 | the gain-node guard does not make stopping idempotent: sound on, power on, power off, sound off issues Start, Stop, Stop |
| Control.StopBeforeFirstStart | knight_rider_web/script.js:266-267 | before any tone was started the guard fails, so turning sound on and off issues no command |
| Audio.Apply | knight_rider_web/script.js:245-274 | Start makes the next generation number current and starts it at full gain; when every generation in the graph has been created, that generation was not running before; older sources keep running or stopped, ramped down or not, as they were, and no callback is added; Stop ramps down exactly the current generation, so it no longer plays at full gain, and queues exactly one stop callback for it, while the current generation stays the same and every source goes on sounding |
| Audio.FireAsWritten | knight_rider_web/script.js:269-272 | a firing callback consumes the oldest pending callback and stops whatever generation is current when it fires and nothing else; it only reads the module variables, so the current generation and the ramps stay as they were; with nothing pending nothing changes |
| Audio.FireFixed | knight_rider_web/script.js:269-272 | corrected callback: consumes the oldest pending callback and stops exactly the generation that was current when it was scheduled, leaving the current generation and the ramps as they were; with nothing pending nothing changes |
| Audio.StaleToneAsWritten | knight_rider_web/script.js:266-274 | as written, sound on, power on, power off, power on, then the callback leaves the page running with sound on while the tone just started is stopped; the only sources sounding are the first, ramped-down ones, and no stop is pending for them; the corrected callback leaves only the new sources sounding, at full gain |
| Audio.StaleToneNeverStops | knight_rider_web/script.js:266-274 | as written, after those inputs no later sequence of clicks and callbacks ever stops the first sources: every callback stops a newer generation |
| Audio.FixedToneFollowsFlags | knight_rider_web/script.js:245-306 | with the corrected callback, after any clicks and firings the newest tone plays at full gain if and only if the page is running with sound on |
| Audio.FixedLeavesNothingRunning | knight_rider_web/script.js:266-274 | with the corrected callback, once every pending callback has fired, the running sources are exactly the live tone's, or none when not live |
| Wireframe.TableSizes | knight_rider_web/script.js:30-100 | the car has 24 vertices and 43 edges |
| Wireframe.EdgesValid | knight_rider_web/script.js:74-100 | every edge joins two distinct entries of the vertex table |
| Wireframe.VerticesMirrored | knight_rider_web/script.js:30-72 | for k in 0..11, vertex 2k+1 is vertex 2k with x negated |
| Wireframe.EdgesRepeat | knight_rider_web/script.js:80-97 | the edge list has duplicates: edge [6, 8] appears at positions 9 and 37 |
| Wireframe.VerticesExtent | knight_rider_web/script.js:30-72 | every vertex lies within 38 across and 110 along the car |
| Projection.Project | knight_rider_web/script.js:102-120 | the projection is infinite exactly when the denominator fov + z' + 300 is zero, and otherwise its scale times the denominator is fov |
| Projection.RotationBound | knight_rider_web/script.js:107-108 | for any cos and sin in [-1, 1], the rotated depth z' = z cos + x sin satisfies abs(z') <= abs(x) + abs(z) |
| Projection.DepthBounds | knight_rider_web/script.js:113 | for points with x and z in [-200, 200], the denominator is between 300 and 1100 at every angle |
| Projection.ScaleBounds | knight_rider_web/script.js:113 | a denominator between 300 and 1100 gives a scale between 4/11 and 4/3 |
| Projection.ProjectInRange | knight_rider_web/script.js:102-120 | every point in that range projects to a finite point with a positive scale of at most 4/3 |
| Projection.OriginCentre | knight_rider_web/script.js:113-117 | at every angle the origin lands at (width/2, height/2 + 50) with scale 400/700 |
| Projection.GridLines | knight_rider_web/script.js:129-140 | the grid is 11 lines across at z = -200, -160, ..., 200 and 11 lines along at the same x values; all are at height 20 and all endpoints are in range |
| Projection.EdgeEndsInRange | knight_rider_web/script.js:153-154 | both ends of every edge are valid, distinct vertex indices, and the vertices are in range |
| Projection.CarSegments | knight_rider_web/script.js:152-157 | at any bounded angle, each of the 43 edges is drawn between the projections of its two table vertices, and every one of them is finite with a positive scale |
| Projection.WheelPointsInRange | knight_rider_web/script.js:160-186 | every outline sample of each of the four wheels is in range, with abs(z) at most 72 |
| Projection.ScannerInRange | knight_rider_web/script.js:197-227 | under the sweep invariant, the ends of the lit segment and of the housing are in range, overshoot included |
| Scene.Draw | knight_rider_web/script.js:143-169 | when not running, draw returns after the grid and leaves the angle, the scanner and the frame request untouched; when running it turns the car by exactly 0.005, moves the scanner by exactly one step and requests the next frame |
| Scene.Handle | knight_rider_web/script.js:276-306 | a click runs its toggle on the flags and a frame leaves them alone; exactly the inputs that draw while running advance the angle by 0.005 and the scanner by one step and request a frame, and every other input leaves angle and scanner alone; a power-off cancels the frame request and a sound click leaves the view untouched |
| Scene.RunAdvances | knight_rider_web/script.js:143-146 | over any inputs, the angle grows by exactly 0.005 per frame drawn while running and the scanner takes exactly one step per such frame |
| Scene.HandleGood | knight_rider_web/script.js:276-306 | every input keeps a frame requested exactly while the page is running |
| Scene.RunGood | knight_rider_web/script.js:169 | the same holds after any sequence of inputs |
| Scene.IdleFrame | knight_rider_web/script.js:143 | while the page is off, a frame changes nothing and draws nothing |
| Scene.Reachable | knight_rider_web/script.js:20-26 | from page load, after any inputs, the angle is a0 + 0.005 per drawn frame, the scanner is the sweep after that many frames, and its position is within [-1.05, 1.05] |
| Scene.FramesWhileRunning | knight_rider_web/script.js:169 | while running, every delivered frame is drawn and requests the next one |
| Scene.SevenFramesOvershoot | knight_rider_web/script.js:284 | power on (which draws one frame) followed by six more frames leaves the scanner at 1.05, moving left |

## Left out

- Canvas drawing is not modelled: stroke colours, line widths, shadow blur, `clearRect` and paths are rendering side effects.
- Trigonometry and floating-point rounding are not modelled. `project` and `drawWheel` take cosine and sine as abstract reals in [-1, 1], and the scanner uses exact reals. Therefore the closing of each wheel outline (sample 8 equals sample 0) is not stated.
- The initial angle pi/4 is a parameter `a0`, because pi is not an exact real. The code never reduces the angle modulo 2 pi, and neither does the model.
- Web Audio parameters are reduced to Start and Stop commands and source generations. These are the 120 Hz triangle oscillator, the 1.5 Hz sine modulator with depth 0.3, the 0.2 target gain and the 0.1 s ramp time constant. Lazy creation of the audio context (`initAudio`) and host failures are host API behaviour.
- Audio.Apply: the gain is not a number here. A generation either plays at full gain or is ramped down (`rampedDown`), and a ramped-down generation still counts as sounding, because the modulator keeps it audible until its sources are stopped. How loud it is and how fast the ramp falls are not modelled.
- Real time is not modelled. The 200 ms delay is reduced to a pending callback that fires at a later `TimerFires` event, in scheduling order.
- Audio.FireAsWritten: the two guards `if (oscillator)` and `if (lfo)` are one test of the current generation, because the two module variables are always assigned together.
- `requestAnimationFrame` and `cancelAnimationFrame` are modelled only as the `framePending` flag. Button labels, CSS classes and the status text are not modelled: they are DOM updates with no effect on the logic.
- Projection.RotationBound: only the depth coordinate is bounded, because only depth enters the denominator. The horizontal coordinate is not bounded.
- No strip-of-segments variant with a decaying brightness trail exists in this file, so none is modelled.

## Findings

| source | as written | input that shows it | evidently intended | confidence | as-written member | corrected member |
|---|---|---|---|---|---|---|
| knight_rider_web/script.js:269-272 | the delayed callback scheduled by `stopSound` stops whatever `oscillator` and `lfo` hold when it fires | sound on, power on, power off, power on again within 200 ms, then the callback fires | the callback stops the sources that were current when `stopSound` ran | medium (not executed) | Audio.StaleToneAsWritten, Audio.StaleToneNeverStops | Audio.FixedToneFollowsFlags |

With that input, the callback stops the new sources, just after they were
started. The page is then running with sound on, but its intended tone is
gone. The first sources were only ramped down: they keep playing, pulsing
with the modulator, and no stop is left for them. Every later callback reads
a newer generation, so no input can ever stop them. `Audio.FireAsWritten` and
`Audio.StepAsWritten` model the code as written. `Audio.FireFixed` and
`Audio.StepFixed` model the corrected callback. The corrected system is also
covered by `Audio.FixedLeavesNothingRunning`.
