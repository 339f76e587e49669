/**
 * The arguments every reward strategy's `compute(env_state, action, info)` receives,
 * and the two strategies defined beside the interface: ProgressReward (velocity along
 * the nearest centreline edge) and BrokenReward (speed only).
 */
module RewardDefinitions {
  import opened Basics
  import opened Numerics
  import opened TrackGeometry
  import opened VehicleDynamics

  /** `[steering, throttle]` as handed to the reward: not clipped. */
  datatype Action = Action(steering: real, throttle: real)

  /**
   * The `info` dict. A key the producer did not set is `None`; each strategy reads it
   * with its own default, as `info.get(key, default)` does.
   */
  datatype Info = Info(
    x: Option<real>,
    y: Option<real>,
    heading: Option<real>,
    speed: Option<real>,
    offTrack: Option<bool>,
    lateralError: Option<real>,
    headingError: Option<real>,
    progress: Option<real>,
    distanceFromCenter: Option<real>,
    deltaProgress: Option<real>,
    progressBonus: Option<real>,
    crashed: Option<bool>)

  /** An `info` dict with no keys at all. */
  const EmptyInfo: Info := Info(None, None, None, None, None, None, None, None, None, None, None, None)

  const OFF_TRACK_REWARD: real := -10.0
  const NORM_EPSILON: real := 0.000001

  /** The edge of the centreline that starts at the point nearest to (x, y). */
  function NearestEdge(cl: seq<Point>, x: real, y: real, m: Math): (real, real)
    requires |cl| > 0
  {
    var idx := ClosestPointInfo(cl, x, y, m).closestIdx;
    (cl[(idx + 1) % |cl|].0 - cl[idx].0, cl[(idx + 1) % |cl|].1 - cl[idx].1)
  }

  /** (vx, vy) . (tx, ty) / (|(tx, ty)| + 1e-6). */
  function Project(vx: real, vy: real, tx: real, ty: real, m: Math): real
    requires Lawful(m)
  {
    vx * (tx / NormEps(tx, ty, m)) + vy * (ty / NormEps(tx, ty, m))
  }

  /** `np.linalg.norm(t) + 1e-6`: never zero, so the division is always defined. */
  function NormEps(tx: real, ty: real, m: Math): (n: real)
    requires Lawful(m)
    ensures n >= NORM_EPSILON
    ensures n * n >= tx * tx + ty * ty
  {
    assert tx * tx >= 0.0 && ty * ty >= 0.0;
    var len := m.sqrt(tx * tx + ty * ty);
    assert len * len == tx * tx + ty * ty;
    assert (len + NORM_EPSILON) * (len + NORM_EPSILON) >= len * len;
    len + NORM_EPSILON
  }

  /** The dot product of the car's velocity with the unit tangent of the nearest edge. */
  function SpeedAlongTrack(cl: seq<Point>, env: CarState, m: Math): real
    requires |cl| > 0 && Lawful(m)
  {
    VelocityAlong(env.speed, env.heading, NearestEdge(cl, env.x, env.y, m), m)
  }

  /** The velocity of a car at `speed` and `heading`, projected onto the direction `t`. */
  function VelocityAlong(speed: real, heading: real, t: (real, real), m: Math): real
    requires Lawful(m)
  {
    Project(speed * m.cos(heading), speed * m.sin(heading), t.0, t.1, m)
  }

  /** `ProgressReward.compute`. */
  function ProgressValue(cl: seq<Point>, env: CarState, action: Action, info: Info, m: Math): real
    requires |cl| > 0 && Lawful(m)
  {
    if info.offTrack.GetOr(false) then OFF_TRACK_REWARD
    else SpeedAlongTrack(cl, env, m) * 0.1 - 0.05 * Abs(action.steering)
  }

  /** Off the track the progress reward is -10 whatever else holds. */
  lemma ProgressOffTrack(cl: seq<Point>, env: CarState, action: Action, info: Info, m: Math)
    requires |cl| > 0 && Lawful(m) && info.offTrack == Some(true)
    ensures ProgressValue(cl, env, action, info, m) == -10.0
  {
  }

  /** (a c + b d)^2 <= (a^2 + b^2) (c^2 + d^2). */
  lemma CauchySchwarz2(a: real, b: real, c: real, d: real)
    ensures (a * c + b * d) * (a * c + b * d) <= (a * a + b * b) * (c * c + d * d)
  {
    assert (a * a + b * b) * (c * c + d * d) - (a * c + b * d) * (a * c + b * d)
        == (a * d - b * c) * (a * d - b * c);
    assert (a * d - b * c) * (a * d - b * c) >= 0.0;
  }

  lemma NonPositiveFactor(a: real, b: real)
    requires b > 0.0 && a * b <= 0.0
    ensures a <= 0.0
  {
  }

  lemma DivDistributes(a: real, b: real, c: real, d: real, n: real)
    requires n != 0.0
    ensures a * (c / n) + b * (d / n) == (a * c + b * d) / n
  {
    assert a * (c / n) == (a * c) / n;
    assert b * (d / n) == (b * d) / n;
  }

  lemma DivBound(a: real, b: real, n: real)
    requires n > 0.0 && a <= b * n
    ensures a / n <= b
  {
    assert a / n - b == (a - b * n) / n;
  }

  lemma SquareBound(p: real, q: real)
    requires q >= 0.0 && p * p <= q * q
    ensures p <= q
  {
    if p > 0.0 {
      assert (p - q) * (p + q) == p * p - q * q;
      NonPositiveFactor(p - q, p + q);
    }
  }

  /** |(vx, vy) . (tx, ty)| is at most the product of the two lengths. */
  lemma DotBound(vx: real, vy: real, tx: real, ty: real, v: real, len: real)
    requires v >= 0.0 && len >= 0.0
    requires vx * vx + vy * vy == v * v && len * len == tx * tx + ty * ty
    ensures vx * tx + vy * ty <= v * len
  {
    var dot := vx * tx + vy * ty;
    CauchySchwarz2(vx, vy, tx, ty);
    assert dot * dot <= (v * v) * (len * len);
    assert (v * len) * (v * len) == (v * v) * (len * len);
    assert v * len >= 0.0;
    SquareBound(dot, v * len);
  }

  /** Projecting a vector of length `v` onto a nearly normalised direction gives at most `v`. */
  lemma ProjectBounded(vx: real, vy: real, tx: real, ty: real, v: real, m: Math)
    requires Lawful(m) && v >= 0.0 && vx * vx + vy * vy == v * v
    ensures Project(vx, vy, tx, ty, m) <= v
  {
    var norm := NormEps(tx, ty, m);
    var dot := vx * tx + vy * ty;
    var len := m.sqrt(tx * tx + ty * ty);
    assert tx * tx >= 0.0 && ty * ty >= 0.0;
    assert len >= 0.0 && len * len == tx * tx + ty * ty;
    assert norm == len + NORM_EPSILON;
    DotBound(vx, vy, tx, ty, v, len);
    assert v * len <= v * norm;
    DivDistributes(vx, vy, tx, ty, norm);
    DivBound(dot, v, norm);
  }

  /** The projection of the velocity onto the nearest edge never exceeds the speed. */
  lemma SpeedAlongTrackBounded(cl: seq<Point>, env: CarState, m: Math)
    requires |cl| > 0 && Lawful(m) && env.speed >= 0.0
    ensures SpeedAlongTrack(cl, env, m) <= env.speed
  {
    VelocityAlongBounded(env.speed, env.heading, NearestEdge(cl, env.x, env.y, m), m);
  }

  lemma VelocityAlongBounded(speed: real, heading: real, t: (real, real), m: Math)
    requires Lawful(m) && speed >= 0.0
    ensures VelocityAlong(speed, heading, t, m) <= speed
  {
    var c, s := m.cos(heading), m.sin(heading);
    assert c * c + s * s == 1.0;
    var vx, vy := speed * c, speed * s;
    assert vx * vx + vy * vy == (speed * speed) * (c * c + s * s);
    ProjectBounded(vx, vy, t.0, t.1, speed, m);
  }

  /** On the track, reward <= 0.1 * speed - 0.05 * |steering|. */
  lemma ProgressOnTrackBounded(cl: seq<Point>, env: CarState, action: Action, info: Info, m: Math)
    requires |cl| > 0 && Lawful(m) && env.speed >= 0.0 && !info.offTrack.GetOr(false)
    ensures ProgressValue(cl, env, action, info, m) <= 0.1 * env.speed - 0.05 * Abs(action.steering)
  {
    SpeedAlongTrackBounded(cl, env, m);
  }

  /** The progress strategy keeps a `last_progress` that `compute` never reads. */
  class ProgressReward {
    const track: Track
    var lastProgress: real

    constructor (track: Track)
      ensures this.track == track && lastProgress == 0.0
    {
      this.track := track;
      lastProgress := 0.0;
    }

    method Reset()
      modifies this
      ensures lastProgress == 0.0
    {
      lastProgress := 0.0;
    }
  }

  /** `BrokenReward.compute`: a tenth of the speed, nothing else. */
  function BrokenValue(env: CarState, action: Action, info: Info): (r: real)
    ensures env.speed >= 0.0 ==> r >= 0.0
  {
    env.speed * 0.1
  }

  /** The broken reward depends only on speed: position, action and info do not matter. */
  lemma BrokenIgnoresAllButSpeed(e1: CarState, a1: Action, i1: Info, e2: CarState, a2: Action, i2: Info)
    requires e1.speed == e2.speed
    ensures BrokenValue(e1, a1, i1) == BrokenValue(e2, a2, i2)
  {
  }

  /** The forward-only lap correction: a drop of more than half a lap counts as a completed lap. */
  predicate ForwardWrapped(current: real, previous: real)
  {
    current - previous < -0.5
  }

  /** Progress since the last call with only forward start-line crossings corrected. */
  function ForwardDelta(current: real, previous: real): (d: real)
    ensures ForwardWrapped(current, previous) ==> d == current - previous + 1.0
    ensures !ForwardWrapped(current, previous) ==> d == current - previous
    ensures 0.0 <= current < 1.0 && 0.0 <= previous < 1.0 ==>
      -0.5 <= d < 1.0 && (ForwardWrapped(current, previous) ==> 0.0 <= d < 0.5)
  {
    var delta := current - previous;
    if delta < -0.5 then delta + 1.0 else delta
  }

  /** A backward jump across the start line (0.01 -> 0.99) is paid as almost a whole lap. */
  lemma ForwardDeltaRewardsBackwardJump()
    ensures ForwardDelta(0.99, 0.01) == 0.98
  {
  }
}
