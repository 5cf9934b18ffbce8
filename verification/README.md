# Force & Motion simulation pipeline — a Dafny model

This project models the logic core of an educational physics visualiser:

- the **simulation store** (`SimulationStore`, `store.dfy`): mass, force, friction, the play flag, the live readout and a chart history capped at 300 samples, together with the store's actions;
- the **moving box** (`MovingBox`, `moving_box.dfy`): the per-frame callback of the 3D scene. It applies the force while playing, recomputes elapsed time from the latched start time, derives acceleration as a guarded backward difference of the engine velocity, remembers that velocity and emits one data point. It also holds the start-time latch that runs when the play flag changes, and the scene reset;
- the **Simulation3D glue** (`ForceMotion`, `force_motion.dfy`): the data-point callback (readout always, history only while playing), the reset button, the handler for configuration snapshots received from the relay, the outgoing-emit effect, and a whole client page driven by a sequence of events;
- the **accessibility settings panel** (`Accessibility`, `accessibility.dfy`): a font size and six switches, single-setting updates, zoom buttons and a slider bounded to 12..24 px, and reset.

The physics engine, the wall clock and the frame delta are inputs. `FrameInput` carries the engine-reported position and velocity, the frame delta and `Date.now()` in integer milliseconds. Physical quantities are Dafny `real`s, so the arithmetic is exact, not IEEE double precision. Every operation is a pure function over immutable records.

The main results:

- From a fresh store, after any sequence of actions, the history is exactly the newest at most 300 points appended since the last reset, in insertion order (`HistoryIsNewestAdded`).
- The same holds for a whole page session, because each page event reaches the store only through the store's own actions (`StepIsItsActions`, `SessionIsStoreRun`, `SessionHistoryBounded`).
- Emitted times never decrease across any mix of playing and paused frames when the clock does not run backwards (`FrameTimesNondecreasing`).
- A received snapshot that changes the local configuration is sent back to the relay verbatim (`RemoteUpdateIsEchoed`). The program itself re-sends every received snapshot (see "## Left out").
- The font size stays in 12..24 under every panel control (`PerformAllKeepsInRange`).

Two behaviours of the code worth knowing:

- The store's `addSimulationData` does not look at the play flag. The gating happens only in the scene's data-point callback (`HandleDataPoint`).
- Elapsed time is measured from the first press of play after a reset. The start time is not re-latched on resume, so paused intervals count towards the time of the next playing frame.

## Model

| member | source | states |
|---|---|---|
| SimulationStore.InitialState | src/hooks/use-simulation-store.ts:22-29 | mass 1, force 10, friction 0.1, not playing, empty history, readout all zero; within the 300 cap |
| SimulationStore.SetMass | src/hooks/use-simulation-store.ts:33 | mass takes the new value; the other config fields, history and readout are unchanged |
| SimulationStore.SetForce | src/hooks/use-simulation-store.ts:34 | force takes the new value; everything else is unchanged |
| SimulationStore.SetFriction | src/hooks/use-simulation-store.ts:35 | friction takes the new value; everything else is unchanged |
| SimulationStore.SetPlaying | src/hooks/use-simulation-store.ts:36 | the play flag takes the new value; history is never truncated or cleared, and the readout is kept |
| SimulationStore.AddSimulationData | src/hooks/use-simulation-store.ts:37-39 | the point becomes the last sample; below 300 samples the history grows by exactly that point; at 300 the oldest is evicted; the result never exceeds 300; config and readout are unchanged |
| SimulationStore.SetLiveData | src/hooks/use-simulation-store.ts:40 | only the readout changes |
| SimulationStore.LastN | src/hooks/use-simulation-store.ts:38 | JavaScript's `slice(-n)` for n > 0 (the store uses n = 300): the result has min(length, n) elements and is the suffix of the input of that length |
| SimulationStore.LiveDataLastWriterWins | src/hooks/use-simulation-store.ts:40 | the readout keeps only the latest write; writing the current readout is a no-op |
| SimulationStore.Reset | src/hooks/use-simulation-store.ts:41 | from any state the result is exactly the initial state |
| SimulationStore.ResetForgetsHistory | src/hooks/use-simulation-store.ts:41 | reset is idempotent and erases the effect of any earlier actions; history empty and paused afterwards |
| SimulationStore.ApplyPreservesValid | src/hooks/use-simulation-store.ts:33-41 | every store action keeps the history within 300 samples |
| SimulationStore.LastNAppend | src/hooks/use-simulation-store.ts:38 | capping to the newest n after every append equals capping once after all appends |
| SimulationStore.RunAppend | src/hooks/use-simulation-store.ts:31-42 | running two action sequences one after the other is running their concatenation |
| SimulationStore.HistoryIsNewestAdded | src/hooks/use-simulation-store.ts:37-41 | after any actions from the initial state, the history equals the newest min(n, 300) points appended since the last reset, in insertion order, and is at most 300 long |
| SimulationStore.ConfigActionsPreserveObservables | src/hooks/use-simulation-store.ts:33-36 | any sequence of the four config setters (pause/resume included) leaves history and readout unchanged |
| MovingBox.RestRefs | src/components/force-motion/Simulation3D.tsx:26-28 | a new box starts with last velocity, time and start time all zero |
| MovingBox.Acceleration | src/components/force-motion/Simulation3D.tsx:59-62 | zero when delta is at most 0; otherwise acceleration times delta equals the velocity change, so no division by zero can occur |
| MovingBox.ElapsedSeconds | src/components/force-motion/Simulation3D.tsx:53 | seconds times 1000 equal the milliseconds since the start time; non-negative when the clock is not behind the start |
| MovingBox.Frame | src/components/force-motion/Simulation3D.tsx:50-66 | force is requested iff playing; time is recomputed from the clock iff playing and kept otherwise; last velocity becomes this frame's velocity either way; exactly one point is emitted with the engine position/velocity, the time ref and the guarded acceleration |
| MovingBox.LatchStart | src/components/force-motion/Simulation3D.tsx:41-47 | the start time is set to the clock reading iff playing and still 0; otherwise it is unchanged; the other refs are never touched |
| MovingBox.SceneReset | src/components/force-motion/Simulation3D.tsx:30-39 | last velocity, time and start time become zero whatever they held |
| MovingBox.LatchIsSticky | src/components/force-motion/Simulation3D.tsx:41-47 | once latched, the start time survives any sequence of play/pause changes, so resuming keeps the time origin |
| MovingBox.RunFrames | src/components/force-motion/Simulation3D.tsx:50-66 | a run of frames emits one point per frame with that frame's engine readings, ends with the last frame's velocity remembered, and never moves the start time |
| MovingBox.FrameTimesNondecreasing | src/components/force-motion/Simulation3D.tsx:50-66 | with a clock that never runs backwards and the time ref not ahead of it, emitted times never decrease across playing and paused frames |
| MovingBox.PausedFramesFreezeTime | src/components/force-motion/Simulation3D.tsx:51-54 | while paused every frame emits the same time, and the time ref is unchanged |
| MovingBox.ResetThenPlayStartsFresh | src/components/force-motion/Simulation3D.tsx:30-66 | after a scene reset and a play at t0, the first frame's time is measured from t0 and its acceleration is taken from rest |
| ForceMotion.HandleDataPoint | src/components/force-motion/Simulation3D.tsx:185-190 | the readout always becomes the point; the history gets the capped append iff playing and is unchanged when paused; the config is untouched |
| ForceMotion.FrameActionsAreHandler | src/components/force-motion/Simulation3D.tsx:185-190 | the callback is exactly set-readout followed, iff playing, by append; it records the point for the history iff playing |
| ForceMotion.HandleStateUpdate | src/components/force-motion/Simulation3D.tsx:155-160 | all four config fields take the payload's values; history and readout are unchanged |
| ForceMotion.StateUpdateIsItsSetters | src/components/force-motion/Simulation3D.tsx:155-160 | the handler is exactly the store's four setter actions in order |
| ForceMotion.StateUpdateLastWriterWins | src/components/force-motion/Simulation3D.tsx:155-160 | applying the local snapshot changes nothing; a later update fully overrides an earlier one |
| ForceMotion.TogglePlay | src/components/force-motion/Simulation3D.tsx:218 | the play button flips the flag and changes nothing else |
| ForceMotion.HandleReset | src/components/force-motion/Simulation3D.tsx:178-183 | the store becomes the initial state (paused, empty history); a mounted box's refs go to rest; an unmounted scene stays unmounted |
| ForceMotion.OutgoingEmit | src/components/force-motion/Simulation3D.tsx:170-175 | a snapshot is sent iff a socket exists and the effect's dependencies changed; what is sent is the full current config, with no origin check |
| ForceMotion.RemoteUpdateIsEchoed | src/components/force-motion/Simulation3D.tsx:155-175 | a settled, connected page re-sends a received snapshot verbatim when it changed the local config, and not when it changed nothing (the program re-sends every received snapshot) |
| ForceMotion.AfterFlagChange | src/components/force-motion/Simulation3D.tsx:41-47 | the start-time effect (dependency `[isPlaying]`) leaves the refs untouched when the flag did not change; when it changed to playing with the start time still 0 the start time becomes the clock reading; velocity and time refs are never touched |
| ForceMotion.InitialClient | src/hooks/use-socket.ts:5 | the page's first render: store in its initial state, no socket yet (the socket state starts as null), and the emit effect has already run without sending |
| ForceMotion.Settle | src/components/force-motion/Simulation3D.tsx:170-175 | after an event the emit effect has caught up with the new dependencies; a snapshot goes out iff a socket exists and the dependencies differ from those of the last run, and what goes out is the store's full config |
| ForceMotion.Step | src/components/force-motion/Simulation3D.tsx:152-224 | one page event (frame, received snapshot, play or reset button, slider, socket ready) performs exactly its store actions, leaves the emit effect settled, sends only the full current config and only when a socket exists and the dependencies changed; the socket is up afterwards iff it was or the event made it ready |
| ForceMotion.RunSession | src/components/force-motion/Simulation3D.tsx:152-224 | a session sends at most one snapshot per event, ends settled when non-empty, changes nothing when empty, and has a socket at the end iff it started with one or one became ready |
| ForceMotion.StepIsItsActions | src/components/force-motion/Simulation3D.tsx:155-190 | every page event changes the store exactly as the store actions it performs |
| ForceMotion.FrameAppendsIffPlaying | src/components/force-motion/Simulation3D.tsx:185-190 | a frame always moves the readout and appends its point iff playing; a paused frame leaves the history unchanged |
| ForceMotion.SessionIsStoreRun | src/components/force-motion/Simulation3D.tsx:155-190 | over any session the page's store equals the store's own actions replayed in order |
| ForceMotion.SessionHistoryBounded | src/components/force-motion/Simulation3D.tsx:178-190 | from a fresh page, after any session, the history is the newest at most 300 points recorded since the last reset |
| ForceMotion.StepKeepsLatched | src/components/force-motion/Simulation3D.tsx:41-47 | with positive clock readings, while playing the start time is latched after every event |
| ForceMotion.SessionKeepsLatched | src/components/force-motion/Simulation3D.tsx:41-47 | the same holds over any session |
| Accessibility.DefaultSettings | src/components/AccessibilityControls.tsx:37-45 | font size 16 and all six switches off |
| Accessibility.UpdateSetting | src/components/AccessibilityControls.tsx:47-52 | the named setting takes the value and every other setting is unchanged |
| Accessibility.UpdateSettingOverrides | src/components/AccessibilityControls.tsx:51 | writing the current value is a no-op; a second write to the same setting overrides the first |
| Accessibility.ZoomOut | src/components/AccessibilityControls.tsx:141 | the font size becomes max(12, size - 2), so it is always at least 12; switches unchanged |
| Accessibility.ZoomIn | src/components/AccessibilityControls.tsx:156 | the font size becomes min(24, size + 2), so it is always at most 24; switches unchanged |
| Accessibility.ZoomRoundTrip | src/components/AccessibilityControls.tsx:141-156 | an unclamped zoom-in followed by a zoom-out restores the settings, and the other way round too |
| Accessibility.SlideFontSize | src/components/AccessibilityControls.tsx:145-152 | a slider value within 12..24 becomes the font size; switches unchanged |
| Accessibility.ResetSettings | src/components/AccessibilityControls.tsx:78-90 | from any settings the result is exactly the defaults |
| Accessibility.ResetIdempotent | src/components/AccessibilityControls.tsx:78-90 | reset is idempotent and lands within 12..24 |
| Accessibility.Perform | src/components/AccessibilityControls.tsx:47-53 | every control produces its settings, and the change callback, when given, receives exactly that record |
| Accessibility.PerformKeepsInRange | src/components/AccessibilityControls.tsx:138-159 | each control keeps the font size within 12..24 |
| Accessibility.PerformAll | src/components/AccessibilityControls.tsx:138-241 | after a sequence of controls ending with reset the settings are the defaults; a sequence of switch toggles alone never changes the font size |
| Accessibility.PerformAllKeepsInRange | src/components/AccessibilityControls.tsx:138-159 | any sequence of controls keeps the font size within 12..24 |

## Left out

- The physics engine. Applying the force, reading the box position and velocity, the contact-material friction and the body's mass are foreign calls. Position and velocity are inputs; only the force request (`Push`) is recorded. The engine commands in the scene reset (zeroing position, velocity and angular velocity) are not modelled. Mass and friction therefore reach the model only as stored configuration.
- `Date.now()` and the animation-frame scheduler become per-frame inputs. The order in which React runs the start-time effect relative to frames is taken as "effect first, at the event's clock reading". A frame rendered while playing before the latch has run is not modelled.
- React and zustand mechanics are not modelled: rendering, effect scheduling, and the reference identity of the single-element `[number]` tuples. The emit effect compares its dependencies by value. With reference identity, every applied remote update would look changed.
- SimulationStore.SetLiveData: the store's declared readout type has position, velocity and acceleration. The callback actually passes the whole point, so at run time the readout object also carries `time`. No reader uses it, and the model keeps the three declared fields.
- The relay server (`src/lib/socket.ts`), the socket hook (`src/hooks/use-socket.ts`) and the HTTP server (`server.ts`) are not part of this model. Broadcasting to every other client happens inside the socket library. A page sees the relay only through `SocketReady`, `RemoteUpdate` and what `OutgoingEmit` sends.
- React batches the four setter calls of the remote-update handler into one render, so the model runs the emit effect once per event, not once per setter.
- ForceMotion.RemoteUpdateIsEchoed: its second half (a received snapshot that changes nothing is not re-sent) holds only because the model compares the emit effect's dependencies by value. In the program the received mass, force and friction are fresh single-element arrays, so the dependencies change on every received update and every update is re-emitted. The relay forwards each one to the other pages, so two connected pages bounce one snapshot back and forth without end; the model stops after one bounce.
- Malformed relay payloads are not modelled: the payload is typed as a full `Config`.
- The accessibility panel's document side effects (inline font size, CSS classes) and its open/closed flag are not modelled. They are DOM I/O and presentation.
- The other demo pages (energy, buoyancy, circuits, waves) are not modelled. They are render-bound floating-point formulas with transcendental functions.
- Static data, layout, navigation, charts, sliders and readouts only render. The accessibility slider's bounds become the precondition of `SlideFontSize`. The simulation sliders' bounds are not enforced by the store, so they are not preconditions.
