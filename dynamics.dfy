/**
 * Point-mass kinematics: clipped inputs, speed integrated against linear drag and
 * clamped to [0, MAX_SPEED], heading wrapped, then the position advanced with the new
 * speed along the new heading.
 */
module VehicleDynamics {
  import opened Basics
  import opened Numerics

  const MAX_SPEED: real := 20.0
  const MAX_STEERING_ANGLE: real := 1.0
  const ACCELERATION: real := 5.0

  /** `[x, y, heading, speed]`. */
  datatype CarState = CarState(x: real, y: real, heading: real, speed: real)

  /** The speed after one step: drag-limited acceleration, clamped. */
  function NextSpeed(s: real, throttle: real, dt: real, friction: real): real {
    SpeedFrom(s, Clip(throttle, 0.0, 1.0), dt, friction)
  }

  /** `NextSpeed` for a throttle already clipped to [0, 1]. */
  function SpeedFrom(s: real, thr: real, dt: real, friction: real): real {
    Clip(s + (thr * ACCELERATION - friction * s) * dt, 0.0, MAX_SPEED)
  }

  /** `_calculate_next_state`. */
  function NextState(st: CarState, steering: real, throttle: real, dt: real, friction: real, m: Math)
    : (r: CarState)
    ensures 0.0 <= r.speed <= MAX_SPEED
    ensures -PI <= r.heading < PI
    ensures r.speed == NextSpeed(st.speed, throttle, dt, friction)
    ensures r.heading == Wrap(st.heading + Clip(steering, -1.0, 1.0) * MAX_STEERING_ANGLE * dt)
    ensures r.x == st.x + r.speed * m.cos(r.heading) * dt
    ensures r.y == st.y + r.speed * m.sin(r.heading) * dt
  {
    Integrate(st, Clip(steering, -1.0, 1.0), Clip(throttle, 0.0, 1.0), dt, friction, m)
  }

  /** One step of `_calculate_next_state` from inputs already clipped. */
  function Integrate(st: CarState, steer: real, thr: real, dt: real, friction: real, m: Math): CarState {
    var newSpeed := SpeedFrom(st.speed, thr, dt, friction);
    var newHeading := Wrap(st.heading + steer * MAX_STEERING_ANGLE * dt);
    CarState(st.x + newSpeed * m.cos(newHeading) * dt, st.y + newSpeed * m.sin(newHeading) * dt,
             newHeading, newSpeed)
  }

  /** Out-of-range inputs act exactly as their clipped values. */
  lemma ClippedInputsAreEquivalent(st: CarState, steering: real, throttle: real, dt: real, friction: real, m: Math)
    ensures NextState(st, steering, throttle, dt, friction, m)
         == NextState(st, Clip(steering, -1.0, 1.0), Clip(throttle, 0.0, 1.0), dt, friction, m)
  {
    var steer := Clip(steering, -1.0, 1.0);
    var thr := Clip(throttle, 0.0, 1.0);
    assert Clip(steer, -1.0, 1.0) == steer;
    assert Clip(thr, 0.0, 1.0) == thr;
  }

  /** Speed after `n` steps from `s0` at a fixed throttle. */
  function SpeedAfter(s0: real, throttle: real, dt: real, friction: real, n: nat): real {
    if n == 0 then s0 else NextSpeed(SpeedAfter(s0, throttle, dt, friction, n - 1), throttle, dt, friction)
  }

  /**
   * One full-throttle step from a speed at or below the drag equilibrium 5/f rises and
   * stays at or below it, for friction in (0, 10] and dt = 0.1.
   */
  lemma FullThrottleStep(s: real, friction: real)
    requires 0.0 < friction <= 10.0
    requires BelowTerminal(s, friction)
    ensures s <= NextSpeed(s, 1.0, 0.1, friction)
    ensures BelowTerminal(NextSpeed(s, 1.0, 0.1, friction), friction)
  {
    var u := friction * s;
    var raw := s + (ACCELERATION - u) * 0.1;
    assert raw >= s;
    assert friction * raw == u + 0.5 * friction - 0.1 * friction * u;
    assert (ACCELERATION - u) * (1.0 - 0.1 * friction) >= 0.0;
    assert friction * raw <= ACCELERATION;
    var next := NextSpeed(s, 1.0, 0.1, friction);
    assert next == Min(raw, MAX_SPEED);
    if next != raw {
      assert next == MAX_SPEED && MAX_SPEED < raw;
      assert friction * next <= friction * raw;
    }
  }

  /** A speed within [0, MAX_SPEED] and at or below the drag equilibrium 5/f. */
  ghost predicate BelowTerminal(s: real, friction: real) {
    0.0 <= s <= MAX_SPEED && friction * s <= ACCELERATION
  }

  lemma {:induction false} FullThrottleInvariant(friction: real, n: nat)
    requires 0.0 < friction <= 10.0
    ensures BelowTerminal(SpeedAfter(0.0, 1.0, 0.1, friction, n), friction)
  {
    if n > 0 {
      var p := SpeedAfter(0.0, 1.0, 0.1, friction, n - 1);
      FullThrottleInvariant(friction, n - 1);
      FullThrottleStep(p, friction);
      assert SpeedAfter(0.0, 1.0, 0.1, friction, n) == NextSpeed(p, 1.0, 0.1, friction);
    }
  }

  lemma BelowEquilibrium(s: real, friction: real)
    requires friction > 0.0 && friction * s <= ACCELERATION
    ensures s <= ACCELERATION / friction
  {
    var q := ACCELERATION / friction;
    assert q * friction == ACCELERATION;
    assert (s - q) * friction <= 0.0;
  }

  /**
   * From rest at full throttle, speed never decreases from one step to the next and
   * never exceeds min(MAX_SPEED, 5/f).
   */
  lemma FullThrottleFromRest(friction: real, n: nat)
    requires 0.0 < friction <= 10.0
    ensures SpeedAfter(0.0, 1.0, 0.1, friction, n) <= SpeedAfter(0.0, 1.0, 0.1, friction, n + 1)
    ensures 0.0 <= SpeedAfter(0.0, 1.0, 0.1, friction, n) <= Min(MAX_SPEED, ACCELERATION / friction)
  {
    var s := SpeedAfter(0.0, 1.0, 0.1, friction, n);
    FullThrottleInvariant(friction, n);
    FullThrottleStep(s, friction);
    BelowEquilibrium(s, friction);
    assert SpeedAfter(0.0, 1.0, 0.1, friction, n + 1) == NextSpeed(s, 1.0, 0.1, friction);
  }

  /** With the throttle closed, a non-negative speed never increases. */
  lemma CoastingNeverSpeedsUp(s: real, dt: real, friction: real)
    requires 0.0 <= s && 0.0 <= dt && 0.0 <= friction
    ensures NextSpeed(s, 0.0, dt, friction) <= Max(s, 0.0)
  {
    assert friction * s >= 0.0;
    assert friction * s * dt >= 0.0;
  }

  /** The car: its pose and speed change only through `Reset` and `Step`. */
  class CarDynamics {
    const dt: real
    /** `FRICTION`: the base drag coefficient, never modified. */
    const friction: real
    var x: real
    var y: real
    var heading: real
    var speed: real

    constructor (dt: real, frictionScale: real)
      ensures this.dt == dt && friction == 1.0 * frictionScale
      ensures State() == CarState(0.0, 0.0, 0.0, 0.0)
    {
      this.dt := dt;
      friction := 1.0 * frictionScale;
      x, y, heading, speed := 0.0, 0.0, 0.0, 0.0;
    }

    /** `get_state`. */
    function State(): CarState
      reads this
    {
      CarState(x, y, heading, speed)
    }

    /** `reset(x, y, heading)`: the given pose, at rest. */
    method Reset(x0: real, y0: real, h0: real) returns (s: CarState)
      modifies this
      ensures State() == CarState(x0, y0, h0, 0.0) && s == State()
    {
      x, y, heading, speed := x0, y0, h0, 0.0;
      s := State();
    }

    /** `peek_step`: the next state at the base friction, without moving the car. */
    function PeekStep(steering: real, throttle: real, m: Math): CarState
      reads this
    {
      NextState(State(), steering, throttle, dt, friction, m)
    }

    /**
     * `step`: advance one tick, using `frictionOverride` for this call only. Without an
     * override it lands exactly where `PeekStep` predicted.
     */
    method Step(steering: real, throttle: real, frictionOverride: Option<real>, m: Math)
      returns (s: CarState)
      modifies this
      ensures State() == NextState(old(State()), steering, throttle, dt, frictionOverride.GetOr(friction), m)
      ensures frictionOverride.None? ==> State() == old(PeekStep(steering, throttle, m))
      ensures 0.0 <= speed <= MAX_SPEED && -PI <= heading < PI
      ensures s == State()
    {
      var f := frictionOverride.GetOr(friction);
      var next := NextState(State(), steering, throttle, dt, f, m);
      x, y, heading, speed := next.x, next.y, next.heading, next.speed;
      s := State();
    }
  }
}
