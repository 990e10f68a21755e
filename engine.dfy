/** The Engine object: the four state fields, updated in place by the
    setters and by the per-frame update. */
module EngineObject {
  import opened Dynamics

  class Engine {
    var rpm: real
    var angle: real
    var throttle: real
    var friction: real

    /** The fields as a value, for stating what each method does. */
    ghost function State(): (s: EngineState)
      reads this
    {
      EngineState(rpm, angle, throttle, friction)
    }

    constructor ()
      ensures State() == Initial()
      ensures Bounded(State())
    {
      rpm, angle, throttle, friction := 0.0, 0.0, 0.0, InitialFriction;
    }

    /** Sets the throttle; nothing else changes. */
    method Accelerate(amount: real)
      modifies this
      ensures throttle == amount
      ensures rpm == old(rpm) && angle == old(angle) && friction == old(friction)
    {
      throttle := amount;
    }

    /** Sets the speed outright (the cruise-control override); nothing else changes. */
    method Cruise(amount: real)
      modifies this
      ensures rpm == amount
      ensures angle == old(angle) && throttle == old(throttle) && friction == old(friction)
    {
      rpm := amount;
    }

    /** Sets the friction; nothing else changes. */
    method Deaccelerate(amount: real)
      modifies this
      ensures friction == amount
      ensures rpm == old(rpm) && angle == old(angle) && throttle == old(throttle)
    {
      friction := amount;
    }

    /** One explicit Euler step of dt seconds. */
    method Update(dt: real)
      modifies this
      ensures State() == Step(old(State()), dt)
      ensures rpm <= RpmCap
      ensures old(throttle) > 0.0 ==> rpm == Min(old(rpm) + ThrottleIncrement(old(throttle), dt), RpmCap)
      ensures old(throttle) <= 0.0 ==> 0.0 <= rpm
      ensures old(throttle) <= 0.0 && old(friction) >= 0.0 && dt >= 0.0 && old(rpm) >= 0.0 ==> rpm <= old(rpm)
      ensures old(Bounded(State())) && dt >= 0.0 ==> Bounded(State()) && angle >= old(angle)
      ensures throttle == old(throttle) && friction == old(friction)
    {
      ghost var before := State();
      if throttle > 0.0 {
        rpm := rpm + ThrottleIncrement(throttle, dt);
      } else {
        rpm := rpm - friction * dt;
        if rpm < 0.0 {
          rpm := 0.0;
        }
      }
      if rpm > RpmCap {
        rpm := RpmCap;
      }
      angle := angle + (rpm / SecondsPerMinute) * 2.0 * Pi * dt;
      if before.throttle <= 0.0 {
        CoastStep(before.rpm, before.throttle, before.friction, dt);
      }
      if Bounded(before) && dt >= 0.0 {
        StepPreservesBounded(before, dt);
      }
      StepAngle(before, dt);
    }

    method GetAngle() returns (a: real)
      ensures a == angle
    {
      a := angle;
    }

    method GetRPM() returns (r: real)
      ensures r == rpm
    {
      r := rpm;
    }
  }
}
