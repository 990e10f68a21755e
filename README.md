# EngineSim rotational dynamics in Dafny

EngineSim is a small real-time single-cylinder engine simulator. Its
simulation core is the `Engine` object: four numbers (`rpm`, crank `angle`
in radians, `throttle`, `friction`) that the front end sets each frame
through `accelerate`, `deaccelerate` and `cruise`, and that `update(dt)`
advances by one explicit Euler step. With throttle applied the speed rises
by 300 · throttle · dt. Without throttle it falls by friction · dt and is
floored at zero. In both cases it is then capped at 2001 rpm. Finally the
crank angle advances by (rpm / 60) · 2π · dt at the capped speed.

The project has two modules:

- `Dynamics` (dynamics.dfy) gives the engine's state as a value
  (`EngineState`) and one step as a function (`Step`, built on `NextRpm`).
  It also defines a run of many frames (`Run`, one `Step` per frame, as the
  front end's main loop calls `update` once per frame). It proves the
  properties of a step and of a run: the cap, the zero floor, the
  invariant 0 ≤ rpm ≤ 2001, the angle never moving backwards, the exact
  throttle ramp, and the scenario of full throttle from rest.
- `EngineObject` (engine.dfy) is the `Engine` class itself. Its fields are
  updated in place. Each setter states the one field it overwrites and that
  the other three are unchanged. `Update` performs the steps of
  `Engine::update` in the same order, and its contract ties the new fields
  to `Step` of the old ones.

Arithmetic is over mathematical reals. π is the real value of the C
library's `M_PI` literal; every proof uses only that it is positive.

`Engine::update` caps the speed at a fixed 2001 rpm after every step and
does not guard against a negative `dt`. The model accepts any `dt` too.
With throttle applied and a negative `dt`, the speed can go below zero,
because the zero floor belongs to the no-throttle branch only
(`ThrottleStep` states this).

## Model

| member | source | states |
|---|---|---|
| Dynamics.Initial | src/Engine.cpp:4-5 | a new engine is at 0 rpm and angle 0, with throttle 0 and friction 50 |
| Dynamics.ThrottleIncrement | src/Engine.cpp:21 | the speed gained in one step under throttle is non-negative when throttle and dt are |
| Dynamics.NextRpm | src/Engine.cpp:19-28 | the speed after a step never exceeds 2001, whatever the (finite) inputs; without throttle it is never negative |
| Dynamics.AngleAdvance | src/Engine.cpp:31 | the angle swept in a step, (rpm / 60)·2π·dt, is non-negative for rpm ≥ 0 and dt ≥ 0, and positive when both are positive |
| Dynamics.Step | src/Engine.cpp:19-32 | a step never changes throttle or friction, and leaves the speed at most 2001 |
| Dynamics.ThrottleStep | src/Engine.cpp:20-28 | with throttle > 0 the new speed is exactly min(rpm + 300·throttle·dt, 2001); friction has no effect; the zero floor is not applied, so a negative sum stays negative |
| Dynamics.CoastStep | src/Engine.cpp:22-28 | with throttle ≤ 0 the new speed is ≥ 0; if friction ≥ 0 and dt ≥ 0 it is at most max(old rpm, 0), so it does not rise from a non-negative speed |
| Dynamics.StepPreservesBounded | src/Engine.cpp:20-28 | for dt ≥ 0, a step keeps 0 ≤ rpm ≤ 2001, whatever the throttle and friction |
| Dynamics.StepAngle | src/Engine.cpp:31 | the angle advances by (new rpm / 60)·2π·dt using the capped speed, and does not decrease when dt ≥ 0 and the new speed is non-negative |
| Dynamics.RunPreservesBounded | src/Engine.cpp:19-32 | over any run of frames with dt ≥ 0, a bounded engine stays in [0, 2001], its angle never decreases, and throttle and friction are unchanged |
| Dynamics.CoastRunNonIncreasing | src/Engine.cpp:22-28 | with throttle ≤ 0 and friction ≥ 0, the speed never rises and never goes negative over any run of frames with dt ≥ 0 |
| Dynamics.ThrottleRamp | src/Engine.cpp:20-28 | holding throttle > 0 for n frames of dt ≥ 0 gives exactly min(rpm + n·300·throttle·dt, 2001) |
| Dynamics.FullThrottleFromRest | src/Engine.cpp:20-28 | from rest at throttle 1 and 60 frames per second the speed is 5n after n ≤ 400 frames and sits at the 2001 cap from frame 401 (6.68 s) on |
| EngineObject.Engine.constructor | src/Engine.cpp:4-5 | the fields start as rpm 0, angle 0, throttle 0, friction 50, inside the bounded range |
| EngineObject.Engine.Accelerate | src/Engine.cpp:7-9 | sets throttle to the amount; rpm, angle and friction unchanged |
| EngineObject.Engine.Cruise | src/Engine.cpp:11-13 | sets rpm to the amount; angle, throttle and friction unchanged |
| EngineObject.Engine.Deaccelerate | src/Engine.cpp:15-17 | sets friction to the amount; rpm, angle and throttle unchanged |
| EngineObject.Engine.Update | src/Engine.cpp:19-32 | the new fields are `Step` of the old: rpm ≤ 2001 always; the exact throttle equation; rpm ≥ 0 and non-increasing without throttle; the bounded range kept and the angle non-decreasing for dt ≥ 0; throttle and friction unchanged |
| EngineObject.Engine.GetAngle | src/Engine.cpp:34 | returns the current crank angle |
| EngineObject.Engine.GetRPM | src/Engine.cpp:35 | returns the current speed |

## Left out

- Single-precision floating-point rounding: every quantity is an exact real. The
  float-to-double promotion around `M_PI` in the angle update is not modelled either.
- Non-finite values (NaN, ±inf): not modelled. In the code every comparison with NaN
  is false, so a NaN speed (after `cruise(NAN)`, or from inf·0 in `friction * dt`)
  passes both the zero floor and the 2001 cap unchanged.
- Dynamics.NextRpm: the cap "rpm ≤ 2001 after every step" holds for finite values
  only; a NaN speed in the code escapes it, as the line above says.
- The crank-slider drawing (src/Piston.cpp, docs/Piston.cpp): trigonometric kinematics
  feeding graphics calls.
- Audio synthesis (include/SoundGenerator.hpp): floating-point synthesis driven by
  the C library's `rand()` and `fmod`, running on the audio backend's thread.
- The window, keyboard and HUD loop (src/main.cpp, docs/main.cpp). This includes the
  caller's policy for throttle, brake and cruise toggling. `Run` stands in only for its
  one-`update`-per-frame call pattern. The frame lengths are parameters instead of a clock.
