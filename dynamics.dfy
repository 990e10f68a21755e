/** The rotational dynamics of the simulated single-cylinder engine, as values.

    An engine's state is four numbers: its speed in revolutions per minute,
    the accumulated crank angle in radians, the throttle and the friction
    (the rate, in rpm per second, at which the engine slows when no throttle
    is applied). One simulation step is an explicit Euler step of length dt:
    throttle raises the speed, otherwise friction lowers it down to zero; the
    speed is then capped at 2001 rpm and the crank angle advances by the
    angle swept at the capped speed.

    Arithmetic is over mathematical reals: the single-precision rounding of
    the C++ `Engine` class, and its NaN and infinite values, are not
    modelled. */
module Dynamics {

  /** rpm gained per second per unit of throttle */
  const ThrottleGain: real := 300.0
  /** the hard speed cap applied after every step */
  const RpmCap: real := 2001.0
  /** friction of a freshly constructed engine */
  const InitialFriction: real := 50.0
  const SecondsPerMinute: real := 60.0
  /** the value of the C library's M_PI; proofs rely only on its being positive */
  const Pi: real := 3.14159265358979323846

  datatype EngineState = EngineState(rpm: real, angle: real, throttle: real, friction: real)

  /** The state of a newly constructed engine: at rest, throttle released,
      friction at its initial value. */
  function Initial(): (s: EngineState)
    ensures s.rpm == 0.0 && s.angle == 0.0
    ensures s.throttle == 0.0 && s.friction == InitialFriction
  {
    EngineState(0.0, 0.0, 0.0, InitialFriction)
  }

  function Min(a: real, b: real): (m: real) { if a <= b then a else b }
  function Max(a: real, b: real): (m: real) { if a >= b then a else b }

  /** The speed after one step of length dt. */
  function NextRpm(rpm: real, throttle: real, friction: real, dt: real): (r: real)
    ensures r <= RpmCap
    ensures throttle <= 0.0 ==> 0.0 <= r
  {
    var raw := if throttle > 0.0 then rpm + ThrottleIncrement(throttle, dt)
               else Max(rpm - friction * dt, 0.0);
    Min(raw, RpmCap)
  }

  /** The speed a step of dt seconds adds under the given throttle. */
  function ThrottleIncrement(throttle: real, dt: real): (inc: real)
    ensures throttle >= 0.0 && dt >= 0.0 ==> inc >= 0.0
  {
    ThrottleGain * throttle * dt
  }

  /** The crank angle, in radians, swept in dt seconds at rpm revolutions per minute. */
  function AngleAdvance(rpm: real, dt: real): (a: real)
    ensures rpm >= 0.0 && dt >= 0.0 ==> a >= 0.0
    ensures rpm > 0.0 && dt > 0.0 ==> a > 0.0
  {
    (rpm / SecondsPerMinute) * 2.0 * Pi * dt
  }

  /** One simulation step of length dt. */
  function Step(s: EngineState, dt: real): (r: EngineState)
    ensures r.throttle == s.throttle && r.friction == s.friction
    ensures r.rpm <= RpmCap
  {
    var rpm := NextRpm(s.rpm, s.throttle, s.friction, dt);
    s.(rpm := rpm, angle := s.angle + AngleAdvance(rpm, dt))
  }

  /** The state after one step per frame, the frames taking dts[0], dts[1], ... seconds. */
  function Run(s: EngineState, dts: seq<real>): (r: EngineState)
    decreases |dts|
  {
    if dts == [] then s else Run(Step(s, dts[0]), dts[1..])
  }

  /** n frames of dt seconds each. */
  function Frames(n: nat, dt: real): (f: seq<real>)
    ensures |f| == n
    ensures forall i :: 0 <= i < n ==> f[i] == dt
  {
    if n == 0 then [] else [dt] + Frames(n - 1, dt)
  }

  /** The speed range every step keeps once the engine is in it. */
  predicate Bounded(s: EngineState)
  {
    0.0 <= s.rpm <= RpmCap
  }

  predicate NonNegative(dts: seq<real>)
  {
    forall i :: 0 <= i < |dts| ==> dts[i] >= 0.0
  }

  // ---------------------------------------------------------------------------
  // One step

  /** With throttle applied, friction plays no part: the speed rises by
      ThrottleGain * throttle * dt and is capped, and is NOT floored at zero
      (a negative dt or a negative starting speed can leave it negative). */
  lemma ThrottleStep(rpm: real, throttle: real, friction: real, dt: real)
    requires throttle > 0.0
    ensures NextRpm(rpm, throttle, friction, dt) == Min(rpm + ThrottleIncrement(throttle, dt), RpmCap)
    ensures forall other :: NextRpm(rpm, throttle, other, dt) == NextRpm(rpm, throttle, friction, dt)
    ensures rpm + ThrottleIncrement(throttle, dt) < 0.0 ==> NextRpm(rpm, throttle, friction, dt) < 0.0
  {
  }

  /** Without throttle, the speed never goes below zero, and with a
      non-negative friction and dt it never rises above where it was
      (or above zero, for a negative starting speed). */
  lemma CoastStep(rpm: real, throttle: real, friction: real, dt: real)
    requires throttle <= 0.0
    ensures 0.0 <= NextRpm(rpm, throttle, friction, dt)
    ensures friction >= 0.0 && dt >= 0.0 ==> NextRpm(rpm, throttle, friction, dt) <= Max(rpm, 0.0)
    ensures friction >= 0.0 && dt >= 0.0 && rpm >= 0.0 ==> NextRpm(rpm, throttle, friction, dt) <= rpm
  {
  }

  /** A step with dt >= 0 keeps the speed within [0, RpmCap] whatever the
      throttle and friction are. */
  lemma StepPreservesBounded(s: EngineState, dt: real)
    requires Bounded(s) && dt >= 0.0
    ensures Bounded(Step(s, dt))
  {
  }

  /** The angle advances by the distance swept at the capped speed; it
      never moves backwards when dt >= 0 and the new speed is non-negative. */
  lemma StepAngle(s: EngineState, dt: real)
    ensures Step(s, dt).angle == s.angle + AngleAdvance(Step(s, dt).rpm, dt)
    ensures dt >= 0.0 && Step(s, dt).rpm >= 0.0 ==> Step(s, dt).angle >= s.angle
  {
  }

  // ---------------------------------------------------------------------------
  // Many steps

  /** Over any run of frames with non-negative lengths a bounded engine stays
      bounded, its crank angle never decreases, and its throttle and
      friction are what they were. */
  lemma {:induction false} RunPreservesBounded(s: EngineState, dts: seq<real>)
    requires Bounded(s) && NonNegative(dts)
    ensures Bounded(Run(s, dts))
    ensures Run(s, dts).angle >= s.angle
    ensures Run(s, dts).throttle == s.throttle && Run(s, dts).friction == s.friction
    decreases |dts|
  {
    if dts != [] {
      StepPreservesBounded(s, dts[0]);
      StepAngle(s, dts[0]);
      RunPreservesBounded(Step(s, dts[0]), dts[1..]);
    }
  }

  /** With the throttle released and non-negative friction, the speed of an
      engine turning forwards never rises over a run of frames. */
  lemma {:induction false} CoastRunNonIncreasing(s: EngineState, dts: seq<real>)
    requires s.throttle <= 0.0 && s.friction >= 0.0 && s.rpm >= 0.0 && NonNegative(dts)
    ensures 0.0 <= Run(s, dts).rpm <= s.rpm
    decreases |dts|
  {
    if dts != [] {
      CoastStep(s.rpm, s.throttle, s.friction, dts[0]);
      CoastRunNonIncreasing(Step(s, dts[0]), dts[1..]);
    }
  }

  /** Holding a positive throttle for n equal frames raises the speed
      linearly, ThrottleGain * throttle * dt per frame, until the cap. */
  lemma {:induction false} ThrottleRamp(s: EngineState, dt: real, n: nat)
    requires s.throttle > 0.0 && dt >= 0.0 && s.rpm <= RpmCap
    ensures Run(s, Frames(n, dt)).rpm == Min(s.rpm + (n as real) * ThrottleIncrement(s.throttle, dt), RpmCap)
    decreases n
  {
    if n > 0 {
      var inc := ThrottleIncrement(s.throttle, dt);
      var f := Frames(n, dt);
      assert f[0] == dt && f[1..] == Frames(n - 1, dt);
      var s' := Step(s, dt);
      assert s'.rpm == Min(s.rpm + inc, RpmCap);
      ThrottleRamp(s', dt, n - 1);
      assert ((n - 1) as real) * inc + inc == (n as real) * inc;
    }
  }

  /** From rest, full throttle (1.0) at 60 frames per second gains 5 rpm a
      frame: the speed is 5n after n <= 400 frames and reaches the cap on
      frame 401, 6.68 seconds in, where it stays for as long as the throttle
      is held. */
  lemma FullThrottleFromRest(n: nat)
    ensures n <= 400 ==> Run(Initial().(throttle := 1.0), Frames(n, 1.0 / 60.0)).rpm == 5.0 * (n as real)
    ensures n >= 401 ==> Run(Initial().(throttle := 1.0), Frames(n, 1.0 / 60.0)).rpm == RpmCap
  {
    ThrottleRamp(Initial().(throttle := 1.0), 1.0 / 60.0, n);
  }
}
