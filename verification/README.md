# First-person pointer-lock controls, modelled in Dafny

This project models the first-person controller `PointerLockControlsArtemis`
of a browser movement prototype built on Three.js and cannon-es. The
controller turns raw input into camera orientation and physics-body velocity:

- keyboard codes set four move flags;
- mouse deltas pass a per-axis spike filter and then turn the yaw and the
  clamped pitch;
- collision events from the physics body set a jump latch, and a Space
  key-down consumes it;
- once per frame, `update` overwrites the body's horizontal velocity with
  the rotated movement intent and moves the camera node to the body.

The controller is `Controls.FirstPersonControls`, a class whose fields are
the source's fields and whose methods are its event handlers. The handlers
are specified by small pure functions in separate modules, and those modules
carry the lemmas:

- `SpikeFilter`: the stale-hold filter and its behaviour over a stream of
  events;
- `Look`: the look scale and the pitch clamp;
- `Keyboard`: DOM key codes and the intent axis;
- `Physics`: the body, contacts and the ground test;
- `Geometry`: vectors.

Modelling choices:

- The spike filter runs only under the module constant `FIX`, which the source sets to `true`. The model has the filter always on and does not model the `FIX = false` variant.
- The remembered deltas `prevMoveX` / `prevMoveY` start as `+Infinity` in the
  source. Here they are `Option<real>`, with `None` for that sentinel.
- `Math.PI / 2` is the constant `HalfPi`, written as the decimal rendering of that double.
- The cannon-es body is the class `Physics.Body`. The controller's `velocity`
  field aliases the body's velocity vector, so every write to it is a write
  to `body.velocity`.
- `enabled` is a plain field. The caller sets it from the `lock` and `unlock`
  listeners in `src/main.js`.
- `isLocked` is undefined in the source until the first pointer-lock change.
  It starts as `false` here.
- The normalise / Euler-to-quaternion / rotate step of `update` is Three.js
  numerics. It is a function-typed parameter `worldMove` of `Update`, so the
  model proves which components are written and which are kept, not the
  rotation itself.

## Model

| member | source | states |
|---|---|---|
| `SpikeFilter.Filter` | src/PointerLockControlsArtemis.js:136-146 | the filtered delta is the raw delta or the previous raw delta; the +Infinity start passes any sample; a delta within factor times the previous magnitude passes unchanged; a delta strictly above that bound is replaced by the previous raw delta; with a factor of at least 1 the output never exceeds the bound |
| `SpikeFilter.IsSpike` | src/PointerLockControlsArtemis.js:137 | the spike test is strict: nothing exceeds the +Infinity start, a delta at or below the bound is not a spike, and one strictly above it is |
| `SpikeFilter.FilterRunSnoc` | src/PointerLockControlsArtemis.js:136-146 | filtering one more event appends one filtered delta, compared against the last raw delta of the stream |
| `SpikeFilter.FilterRun` | src/PointerLockControlsArtemis.js:136-146 | a stream of events yields one filtered delta per raw delta |
| `SpikeFilter.FilterRunComparesRaw` | src/PointerLockControlsArtemis.js:136-146 | in a stream, event i is filtered against raw event i-1 (the starting value for the first), never against a filtered value |
| `SpikeFilter.SpikeDoesNotPoison` | src/PointerLockControlsArtemis.js:140 | after a spike, a delta within the bound of the raw delta just before it passes unchanged, because the raw value is remembered |
| `SpikeFilter.FirstSamplePasses` | src/PointerLockControlsArtemis.js:73-76 | from the +Infinity start, the first sample of any stream passes unfiltered |
| `SpikeFilter.FactorExamples` | src/PointerLockControlsArtemis.js:137-145 | X factor 1.5: previous 5, raw 1000 gives 5, and raw -7.5 passes; Y factor 1.2: previous 5, raw 7 gives 5, and raw 6 passes because the test is strict |
| `SpikeFilter.ZeroHoldsNextDelta` | src/PointerLockControlsArtemis.js:143-145 | after a raw delta of 0, any non-zero delta is replaced by 0 |
| `Look.Turn` | src/PointerLockControlsArtemis.js:149-150 | the rotation of a filtered delta is the delta times the sensitivity divided by 1000; it is zero for no movement and has the delta's sign for a positive sensitivity |
| `Look.ClampPitch` | src/PointerLockControlsArtemis.js:152-153 | the clamped pitch lies in [-pi/2, pi/2] and equals the input when it is already in range |
| `Look.ClampPitchIsNearest` | src/PointerLockControlsArtemis.js:152-153 | the clamped pitch is the point of [-pi/2, pi/2] nearest the input |
| `Keyboard.Decode` | src/PointerLockControlsArtemis.js:157-183 | a code string decodes to a handled key exactly when it is that key's DOM name, and to `Other` otherwise |
| `Keyboard.DecodeName` | src/PointerLockControlsArtemis.js:157-183 | decoding the DOM name of each handled key gives back that key |
| `Keyboard.Axis` | src/PointerLockControlsArtemis.js:228-229 | one intent component, `positive - negative` on booleans, is -1, 0 or 1, and is 0 exactly when both or neither key is held |
| `Geometry.Dot` | src/PointerLockControlsArtemis.js:57 | the dot product with the up axis (0, 1, 0) is the Y component |
| `Physics.OutwardNormal` | src/PointerLockControlsArtemis.js:48-54 | all three components of the normal are negated when the player is body `bi`; otherwise the normal is kept |
| `Physics.IsGroundContact` | src/PointerLockControlsArtemis.js:48-57 | a contact lets the player jump exactly when the reported normal's Y is below -0.5 with the player as `bi`, or above 0.5 otherwise |
| `Controls.FirstPersonControls.constructor` | src/PointerLockControlsArtemis.js:12-79 | disabled, unlocked, no move flag, latch clear, both remembered deltas +Infinity, yaw and pitch 0, camera node at eye height |
| `Controls.FirstPersonControls.Intent` | src/PointerLockControlsArtemis.js:226-229 | the intent vector has Y 0; X is 1 with only right held, -1 with only left held, and 0 when both or neither are held; Z is 1 with only backward held, -1 with only forward held, and 0 when both or neither are held |
| `Controls.FirstPersonControls.OnCollide` | src/PointerLockControlsArtemis.js:43-61 | the latch becomes set when the contact is a ground contact and otherwise keeps its value, so a collision never clears it |
| `Controls.FirstPersonControls.OnPointerlockChange` | src/PointerLockControlsArtemis.js:109-119 | `isLocked` mirrors whether a lock element is present, and the dispatched event is `lock` or `unlock` accordingly |
| `Controls.FirstPersonControls.OnMouseMove` | src/PointerLockControlsArtemis.js:125-154 | while disabled nothing changes. While enabled, both raw deltas become the remembered ones. Yaw decreases by exactly the turn of the filtered X delta, unbounded. Pitch is the clamp of the old pitch minus the turn of the filtered Y delta, so it stays in [-pi/2, pi/2] |
| `Controls.FirstPersonControls.OnKeyDown` | src/PointerLockControlsArtemis.js:156-185 | W/ArrowUp, A/ArrowLeft, S/ArrowDown and D/ArrowRight each set their own flag and no other. Space writes the jump velocity into velocity Y only when the latch was set, and clears the latch either way; X and Z are untouched. Other codes change nothing. No check of `enabled` |
| `Controls.FirstPersonControls.OnKeyUp` | src/PointerLockControlsArtemis.js:187-209 | each movement key clears its own flag and no other; Space and other codes change nothing |
| `Controls.FirstPersonControls.Update` | src/PointerLockControlsArtemis.js:221-246 | while disabled nothing changes. While enabled, velocity X and Z are overwritten with the world-space move of the current intent, speed, pitch and yaw, and velocity Y is kept. The camera node's position becomes the body's position |
| `Controls.RepeatedKeyDown` | src/PointerLockControlsArtemis.js:156-185 | two key-downs of any code leave the state as one does: a movement key sets only its flag; a repeated Space writes the jump velocity at most once and leaves the latch clear; nothing else can change |
| `Controls.MouseMoves` | src/PointerLockControlsArtemis.js:125-154 | a stream of enabled mouse moves, one handler call per event: yaw falls by the summed turns of the filtered X stream; pitch is the clamped fold of the filtered Y stream and stays in range; the last raw deltas are remembered |
| `Controls.LandThenJumpTwice` | src/PointerLockControlsArtemis.js:178-183 | a ground contact followed by Space writes the jump velocity once; a second Space finds the latch clear and writes nothing |

## Left out

- `connect`, `disconnect`, `dispose`, `lock`, `unlock` and `onPointerlockError`: DOM listener and Pointer Lock API plumbing, and a console message.
- The `console.log` diagnostics for deltas beyond ±100 in `onMouseMove`. They change no state.
- `getDirection` and the cached `quaternion` field: a floating-point rotation of (0, 0, -1) by the quaternion of the last `update`.
- `getObject`, the camera and the pitch/yaw `Object3D` hierarchy. Only the yaw node's position and the two rotation angles are modelled.
- `Controls.FirstPersonControls.Update`: does not model the normalise, Euler and quaternion arithmetic, which comes from the Three.js library. That step is the parameter `worldMove`, so properties that depend on it are not proved: no move with no flags, diagonal speed equal to `moveVelocity`, and the direction for a given yaw.
- IEEE-754 doubles are modelled as exact reals: no rounding, no NaN, no infinities other than the `None` sentinel. In the source a NaN delta passes the filter, because every comparison with NaN is false, and is remembered. The next delta then passes unfiltered and filtering resumes. Yaw and pitch, however, become NaN for good: `NaN - x` is NaN, and `Math.min` and `Math.max` pass NaN on. That path is not modelled.
- `src/main.js` (scene, loading, menus, the animation loop, `fireArrow`) and `scripts/export.py` are not part of this model.
