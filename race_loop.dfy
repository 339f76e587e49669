/**
 * The race viewer's replay loop: the agent state at a playback time, interpolated
 * between the two recorded keyframes around it, with the running reward; the two
 * 80-point position trails; and the playback clock's seek, reset and per-frame advance.
 * Frame scheduling and React's state batching are not part of the model: each effect
 * is a method that runs to completion.
 */
module RaceReplay {
  import opened Basics
  import opened Numerics

  /** `newTrail.slice(-80)`. */
  const TRAIL_LENGTH: nat := 80
  const MS_PER_SECOND: real := 1000.0

  datatype TrajectoryPoint = TrajectoryPoint(
    t: real, x: real, y: real, heading: real, speed: real, steering: real, throttle: real, reward: real)

  datatype AgentType = RL | ES

  datatype RaceMetadata = RaceMetadata(
    agentType: AgentType, algorithm: string, trackPoints: seq<(real, real)>, totalTime: real, totalReward: real)

  datatype RaceData = RaceData(metadata: RaceMetadata, trajectory: seq<TrajectoryPoint>)

  datatype AgentState = AgentState(
    x: real, y: real, heading: real, speed: real, steering: real, throttle: real, reward: real,
    cumulativeReward: real)

  /** What `getStateAtTime` returns when the trajectory is not empty. */
  datatype Sample = Sample(state: AgentState, cumulative: real)

  datatype TrailPoint = TrailPoint(x: real, y: real)

  type PlaybackSpeed = s: int | s == 1 || s == 2 || s == 5 || s == 10 witness 1

  // ---------------------------------------------------------------------------------------
  // Interpolation
  // ---------------------------------------------------------------------------------------

  /** `lerp`: from a at t = 0 to b at t = 1. */
  function Lerp(a: real, b: real, t: real): (r: real)
    ensures t == 0.0 ==> r == a
    ensures t == 1.0 ==> r == b
  {
    a + (b - a) * t
  }

  /** For t in [0, 1], `lerp` stays between its two ends. */
  lemma LerpBetween(a: real, b: real, t: real)
    requires 0.0 <= t <= 1.0
    ensures Min(a, b) <= Lerp(a, b, t) <= Max(a, b)
  {
    BlendBetween(a, b, t);
    assert Lerp(a, b, t) == (1.0 - t) * a + t * b;
  }

  /** The least integer not below x. */
  function Ceil(x: real): (n: int)
    ensures x <= n as real < x + 1.0
  {
    -((-x).Floor)
  }

  /** How many times `while (diff > Math.PI) diff -= 2 * Math.PI` subtracts a turn. */
  function DownTurns(d: real): (n: nat)
    ensures d - n as real * TWO_PI <= PI
    ensures n > 0 ==> d - (n - 1) as real * TWO_PI > PI
  {
    if d > PI then
      var q := (d - PI) / TWO_PI;
      var c := Ceil(q);
      assert q * TWO_PI == d - PI;
      assert c as real * TWO_PI >= q * TWO_PI;
      assert (c - 1) as real * TWO_PI < q * TWO_PI;
      assert c >= 1;
      c
    else 0
  }

  /** How many times `while (diff < -Math.PI) diff += 2 * Math.PI` adds a turn. */
  function UpTurns(d: real): (n: nat)
    ensures d + n as real * TWO_PI >= -PI
    ensures n > 0 ==> d + (n - 1) as real * TWO_PI < -PI
  {
    if d < -PI then
      var q := (-PI - d) / TWO_PI;
      var c := Ceil(q);
      assert q * TWO_PI == -PI - d;
      assert c as real * TWO_PI >= q * TWO_PI;
      assert (c - 1) as real * TWO_PI < q * TWO_PI;
      assert c >= 1;
      c
    else 0
  }

  /** The net number of turns the two loops of `lerpAngle` remove from a difference. */
  function AngleTurns(d: real): int
  {
    DownTurns(d) - UpTurns(d - DownTurns(d) as real * TWO_PI)
  }

  /**
   * The difference `lerpAngle` ends with: in [-PI, PI], equal to `d` less a whole number
   * of turns, and `d` itself when it is already in that range.
   */
  function AngleDiff(d: real): (r: real)
    ensures -PI <= r <= PI
    ensures d - r == AngleTurns(d) as real * TWO_PI
    ensures -PI <= d <= PI ==> r == d
  {
    var down := DownTurns(d);
    var d1 := d - down as real * TWO_PI;
    assert down > 0 ==> d1 > -PI by {
      if down > 0 {
        assert (down - 1) as real * TWO_PI == down as real * TWO_PI - TWO_PI;
      }
    }
    var up := UpTurns(d1);
    assert up > 0 ==> d1 + up as real * TWO_PI < PI by {
      if up > 0 {
        assert (up - 1) as real * TWO_PI == up as real * TWO_PI - TWO_PI;
      }
    }
    assert d1 + up as real * TWO_PI - d == (up - down) as real * TWO_PI;
    d1 + up as real * TWO_PI
  }

  /** `lerpAngle`: turn from a towards b the short way round. */
  method LerpAngle(a: real, b: real, t: real) returns (r: real)
    ensures r == a + AngleDiff(b - a) * t
  {
    var diff := b - a;
    diff := TurnDown(diff);
    ghost var mid := diff;
    diff := TurnUp(diff);
    AngleDiffIs(a, b, t, mid, diff);
    r := a + diff * t;
  }

  /** `while (diff > Math.PI) diff -= 2 * Math.PI`. */
  method TurnDown(d: real) returns (diff: real)
    ensures diff == d - DownTurns(d) as real * TWO_PI
  {
    diff := d;
    ghost var down := DownTurns(d);
    ghost var i: nat := 0;
    while diff > PI
      invariant i <= down && diff == d - i as real * TWO_PI
      decreases down - i
    {
      assert (down - i) as real * TWO_PI > 0.0;
      diff := diff - 2.0 * PI;
      i := i + 1;
    }
    TurnsReached(d, i, down);
  }

  /** `while (diff < -Math.PI) diff += 2 * Math.PI`. */
  method TurnUp(d: real) returns (diff: real)
    ensures diff == d + UpTurns(d) as real * TWO_PI
  {
    diff := d;
    ghost var up := UpTurns(d);
    ghost var j: nat := 0;
    while diff < -PI
      invariant j <= up && diff == d + j as real * TWO_PI
      decreases up - j
    {
      assert (up - j) as real * TWO_PI > 0.0;
      diff := diff + 2.0 * PI;
      j := j + 1;
    }
    UpTurnsReached(d, j, up);
  }

  /** The two loops of `lerpAngle` end on `AngleDiff`. */
  lemma AngleDiffIs(a: real, b: real, t: real, mid: real, diff: real)
    requires mid == b - a - DownTurns(b - a) as real * TWO_PI
    requires diff == mid + UpTurns(mid) as real * TWO_PI
    ensures diff == AngleDiff(b - a) && a + diff * t == a + AngleDiff(b - a) * t
  {
  }

  /** The first loop stops after exactly `DownTurns(d)` turns. */
  lemma TurnsReached(d: real, i: nat, down: nat)
    requires down == DownTurns(d) && i <= down && d - i as real * TWO_PI <= PI
    ensures i == down
  {
    if down > 0 {
      assert (down - 1 - i) as real * TWO_PI < TWO_PI;
    }
  }

  /** The second loop stops after exactly `UpTurns(d)` turns. */
  lemma UpTurnsReached(d: real, j: nat, up: nat)
    requires up == UpTurns(d) && j <= up && d + j as real * TWO_PI >= -PI
    ensures j == up
  {
    if up > 0 {
      assert (up - 1 - j) as real * TWO_PI < TWO_PI;
    }
  }

  /** `interpolateState` with the short-way heading, as a pure definition. */
  function Interpolated(prev: TrajectoryPoint, next: TrajectoryPoint, alpha: real, cumulative: real)
    : AgentState
  {
    WithHeading(prev, next, alpha, prev.heading + AngleDiff(next.heading - prev.heading) * alpha, cumulative)
  }

  /** The state `interpolateState` builds around an already interpolated heading. */
  function WithHeading(prev: TrajectoryPoint, next: TrajectoryPoint, alpha: real, heading: real, cumulative: real)
    : AgentState
  {
    AgentState(
      Lerp(prev.x, next.x, alpha),
      Lerp(prev.y, next.y, alpha),
      heading,
      Lerp(prev.speed, next.speed, alpha),
      Lerp(prev.steering, next.steering, alpha),
      Lerp(prev.throttle, next.throttle, alpha),
      Lerp(prev.reward, next.reward, alpha),
      cumulative)
  }

  /** At alpha 0 the interpolated state is the earlier keyframe; at alpha 1 the later one, up to whole turns of heading. */
  lemma InterpolatedEnds(prev: TrajectoryPoint, next: TrajectoryPoint, cumulative: real)
    ensures var s := Interpolated(prev, next, 0.0, cumulative);
      s == AgentState(prev.x, prev.y, prev.heading, prev.speed, prev.steering, prev.throttle, prev.reward, cumulative)
    ensures var s := Interpolated(prev, next, 1.0, cumulative);
      && s.x == next.x && s.y == next.y && s.speed == next.speed && s.steering == next.steering
      && s.throttle == next.throttle && s.reward == next.reward
      && next.heading - s.heading == AngleTurns(next.heading - prev.heading) as real * TWO_PI
  {
  }

  method InterpolateState(prev: TrajectoryPoint, next: TrajectoryPoint, alpha: real, cumulative: real)
    returns (s: AgentState)
    ensures s == Interpolated(prev, next, alpha, cumulative)
  {
    var heading := LerpAngle(prev.heading, next.heading, alpha);
    s := WithHeading(prev, next, alpha, heading, cumulative);
    InterpolatedWithHeading(prev, next, alpha, heading, cumulative);
  }

  lemma InterpolatedWithHeading(prev: TrajectoryPoint, next: TrajectoryPoint, alpha: real, heading: real, cumulative: real)
    requires heading == prev.heading + AngleDiff(next.heading - prev.heading) * alpha
    ensures Interpolated(prev, next, alpha, cumulative) == WithHeading(prev, next, alpha, heading, cumulative)
  {
  }

  // ---------------------------------------------------------------------------------------
  // Keyframe lookup
  // ---------------------------------------------------------------------------------------

  /**
   * The index the keyframe search settles on when it starts at `from`: the first i whose
   * successor is later than c, or the last pair's first index when there is none.
   */
  function PrevIndex(traj: seq<TrajectoryPoint>, c: real, from: nat): (k: nat)
    requires from < |traj|
    ensures k < |traj| && (k + 1 < |traj| || |traj| == 1)
    ensures from + 1 < |traj| ==> from <= k
    ensures forall j :: from < j <= k ==> traj[j].t <= c
    ensures k + 1 < |traj| ==> traj[k + 1].t > c || k + 2 == |traj|
    decreases |traj| - from
  {
    if from + 1 >= |traj| then (if |traj| >= 2 then |traj| - 2 else 0)
    else if traj[from + 1].t > c then from
    else PrevIndex(traj, c, from + 1)
  }

  /** `Math.min(time, last.t)`. */
  function ClampedTime(traj: seq<TrajectoryPoint>, time: real): (c: real)
    requires |traj| > 0
    ensures c <= traj[|traj| - 1].t && c <= time && (c == time || c == traj[|traj| - 1].t)
  {
    Min(time, traj[|traj| - 1].t)
  }

  /** `Math.min(prevIdx + 1, length - 1)`. */
  function NextIndex(traj: seq<TrajectoryPoint>, k: nat): (n: nat)
    requires k < |traj|
    ensures n < |traj| && (n == k + 1 || (n == k && k == |traj| - 1))
  {
    if k + 1 < |traj| then k + 1 else |traj| - 1
  }

  /** The interpolation weight: the fraction of the gap from prev to next, or 0 when they share a time. */
  function Alpha(prev: TrajectoryPoint, next: TrajectoryPoint, c: real): real
  {
    var dt := next.t - prev.t;
    if dt > 0.0 then (c - prev.t) / dt else 0.0
  }

  /** The sum of the first n rewards. */
  function RewardSum(traj: seq<TrajectoryPoint>, n: nat): real
    requires n <= |traj|
  {
    if n == 0 then 0.0 else RewardSum(traj, n - 1) + traj[n - 1].reward
  }

  /** The sample between keyframe k and the next one at the clamped time c. */
  function SampleAt(traj: seq<TrajectoryPoint>, c: real, k: nat): (r: Sample)
    requires k < |traj|
    ensures r.state.cumulativeReward == r.cumulative
  {
    var next := traj[NextIndex(traj, k)];
    SampleBetween(traj[k], next, Alpha(traj[k], next, c), RewardSum(traj, k + 1))
  }

  /** The interpolated state at weight a, with `total` plus a times prev's reward on the counter. */
  function SampleBetween(prev: TrajectoryPoint, next: TrajectoryPoint, a: real, total: real): (r: Sample)
    ensures r.state.cumulativeReward == r.cumulative
  {
    var cumulative := total + prev.reward * a;
    Sample(Interpolated(prev, next, a, cumulative), cumulative)
  }

  /**
   * `getStateAtTime` as a pure definition: None for an empty trajectory, otherwise the
   * interpolated state and the rewards of keyframes 0..prevIdx plus alpha times prev's.
   */
  function StateAt(traj: seq<TrajectoryPoint>, time: real): (r: Option<Sample>)
    ensures r.None? <==> |traj| == 0
  {
    if |traj| == 0 then None
    else Some(SampleAt(traj, ClampedTime(traj, time), PrevIndex(traj, ClampedTime(traj, time), 0)))
  }

  /** The keyframe search loop of `getStateAtTime`. */
  method FindPrevIndex(traj: seq<TrajectoryPoint>, clampedTime: real) returns (prevIdx: nat)
    requires |traj| > 0
    ensures prevIdx == PrevIndex(traj, clampedTime, 0)
  {
    prevIdx := 0;
    var i := 0;
    while i < |traj| - 1
      invariant 0 <= i <= |traj| - 1
      invariant PrevIndex(traj, clampedTime, 0) == PrevIndex(traj, clampedTime, i)
      invariant prevIdx == if i == 0 then 0 else i - 1
    {
      if traj[i + 1].t > clampedTime {
        prevIdx := i;
        break;
      }
      prevIdx := i;
      i := i + 1;
    }
  }

  /** The reward loop of `getStateAtTime`: the rewards of keyframes 0..last. */
  method SumRewards(traj: seq<TrajectoryPoint>, last: nat) returns (cumulative: real)
    requires last < |traj|
    ensures cumulative == RewardSum(traj, last + 1)
  {
    cumulative := 0.0;
    var j := 0;
    while j <= last
      invariant 0 <= j <= last + 1
      invariant cumulative == RewardSum(traj, j)
    {
      cumulative := cumulative + traj[j].reward;
      j := j + 1;
    }
  }

  method GetStateAtTime(traj: seq<TrajectoryPoint>, time: real) returns (result: Option<Sample>)
    ensures result == StateAt(traj, time)
  {
    if |traj| == 0 {
      return None;
    }
    var clampedTime := Min(time, traj[|traj| - 1].t);
    var prevIdx := FindPrevIndex(traj, clampedTime);
    var prev := traj[prevIdx];
    var next := traj[if prevIdx + 1 <= |traj| - 1 then prevIdx + 1 else |traj| - 1];
    assert next == traj[NextIndex(traj, prevIdx)];
    var dt := next.t - prev.t;
    var alpha := if dt > 0.0 then (clampedTime - prev.t) / dt else 0.0;
    assert alpha == Alpha(prev, next, clampedTime);
    var cumulative := SumRewards(traj, prevIdx);
    ghost var total := cumulative;
    cumulative := cumulative + prev.reward * alpha;
    var state := InterpolateState(prev, next, alpha, cumulative);
    result := Some(Sample(state, cumulative));
    assert result.value == SampleBetween(prev, next, alpha, total);
  }

  /** Keyframe times never decrease along the trajectory. */
  predicate TimesSorted(traj: seq<TrajectoryPoint>)
  {
    forall i, j :: 0 <= i <= j < |traj| ==> traj[i].t <= traj[j].t
  }

  /**
   * For sorted keyframe times and a playback time not before the first keyframe, the
   * clamped time lies between the two keyframes found, so alpha is in [0, 1].
   */
  lemma AlphaInUnitInterval(traj: seq<TrajectoryPoint>, time: real)
    requires |traj| > 0 && TimesSorted(traj) && traj[0].t <= time
    ensures var c := ClampedTime(traj, time);
      var k := PrevIndex(traj, c, 0);
      traj[k].t <= c && 0.0 <= Alpha(traj[k], traj[NextIndex(traj, k)], c) <= 1.0
  {
    var c := ClampedTime(traj, time);
    var k := PrevIndex(traj, c, 0);
    var n := NextIndex(traj, k);
    assert traj[0].t <= traj[|traj| - 1].t;
    assert traj[k].t <= c;
    var dt := traj[n].t - traj[k].t;
    if dt > 0.0 {
      assert n == k + 1;
      assert c <= traj[n].t;
      var a := Alpha(traj[k], traj[n], c);
      assert a == (c - traj[k].t) / dt;
      AlphaBounds(c - traj[k].t, dt);
    }
  }

  /** A part of a positive whole, divided by the whole, is between 0 and 1. */
  lemma AlphaBounds(part: real, dt: real)
    requires dt > 0.0 && 0.0 <= part <= dt
    ensures 0.0 <= part / dt <= 1.0
  {
    var q := part / dt;
    assert q * dt == part;
    assert (1.0 - q) * dt == dt - part;
  }

  /**
   * With strictly increasing times, replaying at the time of keyframe k (not the last)
   * shows keyframe k itself, with the rewards of keyframes 0..k.
   */
  lemma ReplayAtKeyframe(traj: seq<TrajectoryPoint>, k: nat)
    requires k + 1 < |traj|
    requires forall i :: 0 <= i < |traj| - 1 ==> traj[i].t < traj[i + 1].t
    ensures var p := traj[k];
      StateAt(traj, p.t) == Some(Sample(
        AgentState(p.x, p.y, p.heading, p.speed, p.steering, p.throttle, p.reward, RewardSum(traj, k + 1)),
        RewardSum(traj, k + 1)))
  {
    StrictlyIncreasing(traj);
    var c := ClampedTime(traj, traj[k].t);
    assert c == traj[k].t;
    KeyframeFound(traj, c, 0, k);
    assert NextIndex(traj, k) == k + 1;
    var a := Alpha(traj[k], traj[k + 1], c);
    assert c - traj[k].t == 0.0;
    assert a == 0.0 / (traj[k + 1].t - traj[k].t);
    var sum := RewardSum(traj, k + 1);
    assert sum + traj[k].reward * a == sum;
    InterpolatedEnds(traj[k], traj[k + 1], sum);
    assert SampleAt(traj, c, k) == SampleBetween(traj[k], traj[k + 1], 0.0, sum);
  }

  lemma {:induction false} StrictlyIncreasing(traj: seq<TrajectoryPoint>)
    requires forall i :: 0 <= i < |traj| - 1 ==> traj[i].t < traj[i + 1].t
    ensures forall i, j :: 0 <= i < j < |traj| ==> traj[i].t < traj[j].t
    decreases |traj|
  {
    if |traj| > 1 {
      var n := |traj| - 1;
      var front := traj[..n];
      assert forall i :: 0 <= i < |front| - 1 ==> front[i].t < front[i + 1].t;
      StrictlyIncreasing(front);
      forall i, j | 0 <= i < j < |traj|
        ensures traj[i].t < traj[j].t
      {
        if j < n {
          assert front[i].t < front[j].t;
        } else if i < n - 1 {
          assert front[i].t < front[n - 1].t;
        }
      }
    }
  }

  /** The search from `from` stops at the keyframe whose time is c when times strictly increase. */
  lemma {:induction false} KeyframeFound(traj: seq<TrajectoryPoint>, c: real, from: nat, k: nat)
    requires from <= k && k + 1 < |traj| && traj[k].t == c
    requires forall i, j :: 0 <= i < j < |traj| ==> traj[i].t < traj[j].t
    ensures PrevIndex(traj, c, from) == k
    decreases k - from
  {
    if from < k {
      assert traj[from + 1].t <= traj[k].t;
      KeyframeFound(traj, c, from + 1, k);
    }
  }

  /** With strictly increasing times, the search for the last keyframe's time settles on the last pair. */
  lemma {:induction false} LastPairFound(traj: seq<TrajectoryPoint>, c: real, from: nat)
    requires 2 <= |traj| && from <= |traj| - 2 && c == traj[|traj| - 1].t
    requires forall i, j :: 0 <= i < j < |traj| ==> traj[i].t < traj[j].t
    ensures PrevIndex(traj, c, from) == |traj| - 2
    decreases |traj| - from
  {
    if from < |traj| - 2 {
      assert traj[from + 1].t < traj[|traj| - 1].t;
      LastPairFound(traj, c, from + 1);
    } else {
      assert PrevIndex(traj, c, from + 1) == |traj| - 2;
    }
  }

  /** The clamped time of the last keyframe selects the last pair with alpha 1. */
  lemma LastKeyframeAlpha(traj: seq<TrajectoryPoint>)
    requires |traj| >= 2
    requires forall i, j :: 0 <= i < j < |traj| ==> traj[i].t < traj[j].t
    ensures var n := |traj|;
      var c := ClampedTime(traj, traj[n - 1].t);
      && c == traj[n - 1].t && PrevIndex(traj, c, 0) == n - 2 && NextIndex(traj, n - 2) == n - 1
      && Alpha(traj[n - 2], traj[n - 1], c) == 1.0
  {
    var n := |traj|;
    var c := ClampedTime(traj, traj[n - 1].t);
    LastPairFound(traj, c, 0);
    AlphaAtEnd(traj[n - 2], traj[n - 1], c);
  }

  /** Alpha at the later keyframe's time is 1 when the two times differ. */
  lemma AlphaAtEnd(prev: TrajectoryPoint, next: TrajectoryPoint, c: real)
    requires prev.t < next.t && c == next.t
    ensures Alpha(prev, next, c) == 1.0
  {
    var dt := next.t - prev.t;
    assert c - prev.t == dt;
    assert Alpha(prev, next, c) == dt / dt;
    DivSelf(dt);
  }

  lemma DivSelf(x: real)
    requires x > 0.0
    ensures x / x == 1.0
  {
    var q := x / x;
    assert q * x == x;
    assert (q - 1.0) * x == 0.0;
  }

  /**
   * As written, replaying at the last keyframe's time (strictly increasing times, two
   * keyframes or more) reports the rewards of keyframes 0..n-2 and keyframe n-2's reward a
   * second time, in place of the last keyframe's.
   */
  lemma ReplayAtEnd(traj: seq<TrajectoryPoint>)
    requires |traj| >= 2
    requires forall i :: 0 <= i < |traj| - 1 ==> traj[i].t < traj[i + 1].t
    ensures var n := |traj|;
      && StateAt(traj, traj[n - 1].t).Some?
      && StateAt(traj, traj[n - 1].t).value.cumulative == RewardSum(traj, n - 1) + traj[n - 2].reward
  {
    StrictlyIncreasing(traj);
    LastKeyframeAlpha(traj);
  }

  /**
   * Three keyframes at times 0, 1, 2 with rewards 1, 0, 5 (other fields arbitrary) end the
   * replay with 1 on the counter, not 6.
   */
  lemma FinalRewardDropped(traj: seq<TrajectoryPoint>)
    requires |traj| == 3
    requires traj[0].t == 0.0 && traj[1].t == 1.0 && traj[2].t == 2.0
    requires traj[0].reward == 1.0 && traj[1].reward == 0.0 && traj[2].reward == 5.0
    ensures StateAt(traj, 2.0).Some? && StateAt(traj, 2.0).value.cumulative == 1.0
    ensures RewardSum(traj, 3) == 6.0
  {
    ReplayAtEnd(traj);
    assert RewardSum(traj, 1) == 1.0;
    assert RewardSum(traj, 2) == 1.0;
  }

  /**
   * The running total the counter evidently means: the reward total up to keyframe k
   * interpolated towards the total up to the next keyframe.
   */
  function IntendedCumulative(traj: seq<TrajectoryPoint>, c: real, k: nat): real
    requires k < |traj|
  {
    var n := NextIndex(traj, k);
    Lerp(RewardSum(traj, k + 1), RewardSum(traj, n + 1), Alpha(traj[k], traj[n], c))
  }

  /** `getStateAtTime` with the intended running total. */
  function IntendedStateAt(traj: seq<TrajectoryPoint>, time: real): (r: Option<Sample>)
    ensures r.None? <==> |traj| == 0
    ensures r.Some? ==> r.value.state.cumulativeReward == r.value.cumulative
  {
    if |traj| == 0 then None
    else
      var c := ClampedTime(traj, time);
      var k := PrevIndex(traj, c, 0);
      var n := NextIndex(traj, k);
      var cumulative := IntendedCumulative(traj, c, k);
      Some(Sample(Interpolated(traj[k], traj[n], Alpha(traj[k], traj[n], c), cumulative), cumulative))
  }

  /**
   * With the intended total and strictly increasing times, replaying at any keyframe's
   * time, the last one included, shows the rewards of keyframes 0..k.
   */
  lemma IntendedReplayAtKeyframe(traj: seq<TrajectoryPoint>, k: nat)
    requires k < |traj|
    requires forall i :: 0 <= i < |traj| - 1 ==> traj[i].t < traj[i + 1].t
    ensures IntendedStateAt(traj, traj[k].t).Some?
    ensures IntendedStateAt(traj, traj[k].t).value.cumulative == RewardSum(traj, k + 1)
  {
    var c := ClampedTime(traj, traj[k].t);
    IntendedAtKeyframe(traj, k);
    assert IntendedStateAt(traj, traj[k].t).value.cumulative == IntendedCumulative(traj, c, PrevIndex(traj, c, 0));
  }

  /** The intended total at keyframe k's clamped time, one case per position of k. */
  lemma IntendedAtKeyframe(traj: seq<TrajectoryPoint>, k: nat)
    requires k < |traj|
    requires forall i :: 0 <= i < |traj| - 1 ==> traj[i].t < traj[i + 1].t
    ensures var c := ClampedTime(traj, traj[k].t);
      IntendedCumulative(traj, c, PrevIndex(traj, c, 0)) == RewardSum(traj, k + 1)
  {
    StrictlyIncreasing(traj);
    if k + 1 < |traj| {
      IntendedAtInnerKeyframe(traj, k);
    } else if k == 0 {
      IntendedAtOnlyKeyframe(traj);
    } else {
      IntendedAtLastKeyframe(traj);
    }
  }

  /** With a single keyframe the pair is that keyframe twice and the total is its reward. */
  lemma IntendedAtOnlyKeyframe(traj: seq<TrajectoryPoint>)
    requires |traj| == 1
    ensures var c := ClampedTime(traj, traj[0].t);
      IntendedCumulative(traj, c, PrevIndex(traj, c, 0)) == RewardSum(traj, 1)
  {
    var c := ClampedTime(traj, traj[0].t);
    assert PrevIndex(traj, c, 0) == 0 && NextIndex(traj, 0) == 0;
    AlphaAtStart(traj[0], traj[0], traj[0].t);
    IntendedAtFound(traj, c, 0, 0.0);
  }

  /** At a keyframe with a successor alpha is 0. */
  lemma IntendedAtInnerKeyframe(traj: seq<TrajectoryPoint>, k: nat)
    requires k + 1 < |traj|
    requires forall i, j :: 0 <= i < j < |traj| ==> traj[i].t < traj[j].t
    ensures var c := ClampedTime(traj, traj[k].t);
      IntendedCumulative(traj, c, PrevIndex(traj, c, 0)) == RewardSum(traj, k + 1)
  {
    var c := ClampedTime(traj, traj[k].t);
    assert c == traj[k].t;
    KeyframeFound(traj, c, 0, k);
    AlphaAtStart(traj[k], traj[k + 1], c);
    IntendedAtFound(traj, c, k, 0.0);
  }

  /** At the last of two or more keyframes alpha is 1 on the last pair. */
  lemma IntendedAtLastKeyframe(traj: seq<TrajectoryPoint>)
    requires |traj| >= 2
    requires forall i, j :: 0 <= i < j < |traj| ==> traj[i].t < traj[j].t
    ensures var c := ClampedTime(traj, traj[|traj| - 1].t);
      IntendedCumulative(traj, c, PrevIndex(traj, c, 0)) == RewardSum(traj, |traj|)
  {
    LastKeyframeAlpha(traj);
    IntendedAtFound(traj, traj[|traj| - 1].t, |traj| - 2, 1.0);
  }

  /** Alpha at the earlier keyframe's own time is 0. */
  lemma AlphaAtStart(prev: TrajectoryPoint, next: TrajectoryPoint, c: real)
    requires c == prev.t
    ensures Alpha(prev, next, c) == 0.0
  {
    var dt := next.t - prev.t;
    assert c - prev.t == 0.0;
    if dt > 0.0 {
      assert Alpha(prev, next, c) == 0.0 / dt;
    }
  }

  /**
   * Once the search is known to settle on p with weight a, the intended total is the total
   * up to p when a is 0 and the total up to p's successor when a is 1.
   */
  lemma IntendedAtFound(traj: seq<TrajectoryPoint>, c: real, p: nat, a: real)
    requires p < |traj| && PrevIndex(traj, c, 0) == p
    requires a == 0.0 || a == 1.0
    requires Alpha(traj[p], traj[NextIndex(traj, p)], c) == a
    ensures IntendedCumulative(traj, c, PrevIndex(traj, c, 0))
         == if a == 0.0 then RewardSum(traj, p + 1) else RewardSum(traj, NextIndex(traj, p) + 1)
  {
    IntendedCumulativeAt(traj, c, p, NextIndex(traj, p));
  }

  /** `IntendedCumulative` spelled out for a known next index. */
  lemma IntendedCumulativeAt(traj: seq<TrajectoryPoint>, c: real, k: nat, n: nat)
    requires k < |traj| && n == NextIndex(traj, k)
    ensures IntendedCumulative(traj, c, k) == Lerp(RewardSum(traj, k + 1), RewardSum(traj, n + 1), Alpha(traj[k], traj[n], c))
  {
  }

  /** For alpha in [0, 1] the intended total stays between the totals at the two keyframes. */
  lemma IntendedCumulativeBetween(traj: seq<TrajectoryPoint>, c: real, k: nat)
    requires k < |traj|
    requires 0.0 <= Alpha(traj[k], traj[NextIndex(traj, k)], c) <= 1.0
    ensures var n := NextIndex(traj, k);
      Min(RewardSum(traj, k + 1), RewardSum(traj, n + 1)) <= IntendedCumulative(traj, c, k)
        <= Max(RewardSum(traj, k + 1), RewardSum(traj, n + 1))
  {
    var n := NextIndex(traj, k);
    LerpBetween(RewardSum(traj, k + 1), RewardSum(traj, n + 1), Alpha(traj[k], traj[n], c));
  }

  // ---------------------------------------------------------------------------------------
  // Trails and the playback clock
  // ---------------------------------------------------------------------------------------

  /** `[...prev, p].slice(-80)`: the newest 80 points, ending with p. */
  function PushTrail(trail: seq<TrailPoint>, p: TrailPoint): (r: seq<TrailPoint>)
    ensures |r| <= TRAIL_LENGTH && |r| > 0 && r[|r| - 1] == p
    ensures |trail| < TRAIL_LENGTH ==> r == trail + [p]
    ensures |trail| >= TRAIL_LENGTH ==> |r| == TRAIL_LENGTH && r == (trail + [p])[|trail| + 1 - TRAIL_LENGTH..]
  {
    var t := trail + [p];
    if |t| > TRAIL_LENGTH then t[|t| - TRAIL_LENGTH..] else t
  }

  /** `total_time` of the data, or 0 without data. */
  function TotalTime(data: Option<RaceData>): real
  {
    if data.Some? then data.value.metadata.totalTime else 0.0
  }

  /** The sample for one agent's data at a time, if there is data and it has keyframes. */
  function Sampled(data: Option<RaceData>, time: real): Option<Sample>
  {
    if data.Some? then StateAt(data.value.trajectory, time) else None
  }

  /** The trail after `updateStates`: one point pushed when there is a sample. */
  function TrailAfter(trail: seq<TrailPoint>, s: Option<Sample>): seq<TrailPoint>
  {
    if s.Some? then PushTrail(trail, TrailPoint(s.value.state.x, s.value.state.y)) else trail
  }

  /** The shown state after `updateStates`: the sample's state when there is one. */
  function StateAfter(state: Option<AgentState>, s: Option<Sample>): Option<AgentState>
  {
    if s.Some? then Some(s.value.state) else state
  }

  /** One agent's half of `updateStates`: sample its replay, show the state, extend the trail. */
  method SampleAndPush(data: Option<RaceData>, time: real, state: Option<AgentState>, trail: seq<TrailPoint>)
    returns (state': Option<AgentState>, trail': seq<TrailPoint>)
    ensures state' == StateAfter(state, Sampled(data, time))
    ensures trail' == TrailAfter(trail, Sampled(data, time))
    ensures |trail| <= TRAIL_LENGTH ==> |trail'| <= TRAIL_LENGTH
  {
    state', trail' := state, trail;
    if data.Some? {
      var result := GetStateAtTime(data.value.trajectory, time);
      if result.Some? {
        state' := Some(result.value.state);
        trail' := PushTrail(trail, TrailPoint(result.value.state.x, result.value.state.y));
      }
    }
  }

  /** The state the `useRaceLoop` hook keeps for one pair of replays. */
  class RaceLoop {
    var rlData: Option<RaceData>
    var esData: Option<RaceData>
    var isPlaying: bool
    var playbackSpeed: PlaybackSpeed
    var loop: bool
    var currentTime: real
    var rlState: Option<AgentState>
    var esState: Option<AgentState>
    var rlTrail: seq<TrailPoint>
    var esTrail: seq<TrailPoint>
    /** `lastTimeRef`: the previous frame's timestamp, 0 when none has been seen. */
    var lastTime: real

    ghost predicate Valid()
      reads this
    {
      |rlTrail| <= TRAIL_LENGTH && |esTrail| <= TRAIL_LENGTH
    }

    /** `maxTime`: the longer of the two recordings, 0 for a missing one. */
    function MaxTime(): (t: real)
      reads this
      ensures t >= TotalTime(rlData) && t >= TotalTime(esData)
      ensures t == TotalTime(rlData) || t == TotalTime(esData)
    {
      Max(TotalTime(rlData), TotalTime(esData))
    }

    /** The hook's initial state. */
    constructor(rlData: Option<RaceData>, esData: Option<RaceData>)
      ensures Valid()
      ensures this.rlData == rlData && this.esData == esData
      ensures !isPlaying && playbackSpeed == 1 && loop && currentTime == 0.0 && lastTime == 0.0
      ensures rlState == None && esState == None && rlTrail == [] && esTrail == []
    {
      this.rlData := rlData;
      this.esData := esData;
      isPlaying := false;
      playbackSpeed := 1;
      loop := true;
      currentTime := 0.0;
      rlState := None;
      esState := None;
      rlTrail := [];
      esTrail := [];
      lastTime := 0.0;
    }

    /** The effect on new data: back to time 0 with no trails and no states. */
    method DataChanged(rl: Option<RaceData>, es: Option<RaceData>)
      modifies this
      ensures Valid()
      ensures rlData == rl && esData == es && currentTime == 0.0
      ensures rlTrail == [] && esTrail == [] && rlState == None && esState == None
      ensures isPlaying == old(isPlaying) && playbackSpeed == old(playbackSpeed) && loop == old(loop)
      ensures lastTime == old(lastTime)
    {
      rlData := rl;
      esData := es;
      currentTime := 0.0;
      rlTrail := [];
      esTrail := [];
      rlState := None;
      esState := None;
    }

    /**
     * `play`, together with the effect on `isPlaying`: the last frame time is forgotten
     * only when playing starts, because a `play` while playing leaves `isPlaying` as it
     * was and the effect does not run.
     */
    method Play()
      modifies this
      ensures isPlaying && lastTime == (if old(isPlaying) then old(lastTime) else 0.0)
      ensures currentTime == old(currentTime) && rlTrail == old(rlTrail) && esTrail == old(esTrail)
      ensures rlState == old(rlState) && esState == old(esState)
      ensures rlData == old(rlData) && esData == old(esData)
      ensures playbackSpeed == old(playbackSpeed) && loop == old(loop)
    {
      if !isPlaying {
        lastTime := 0.0;
      }
      isPlaying := true;
    }

    method Pause()
      modifies this
      ensures !isPlaying
      ensures currentTime == old(currentTime) && rlTrail == old(rlTrail) && esTrail == old(esTrail)
      ensures rlState == old(rlState) && esState == old(esState)
      ensures rlData == old(rlData) && esData == old(esData)
      ensures playbackSpeed == old(playbackSpeed) && loop == old(loop) && lastTime == old(lastTime)
    {
      isPlaying := false;
    }

    /** `reset`: back to time 0 with empty trails. */
    method Reset()
      modifies this
      ensures Valid()
      ensures currentTime == 0.0 && rlTrail == [] && esTrail == []
      ensures rlState == old(rlState) && esState == old(esState)
      ensures rlData == old(rlData) && esData == old(esData) && isPlaying == old(isPlaying)
      ensures playbackSpeed == old(playbackSpeed) && loop == old(loop) && lastTime == old(lastTime)
    {
      currentTime := 0.0;
      rlTrail := [];
      esTrail := [];
    }

    /** `seek`: jump to the time clamped to [0, maxTime] and clear the trails. */
    method Seek(time: real)
      modifies this
      ensures Valid()
      ensures currentTime == Max(0.0, Min(time, MaxTime()))
      ensures 0.0 <= currentTime && (MaxTime() >= 0.0 ==> currentTime <= MaxTime())
      ensures 0.0 <= time <= MaxTime() ==> currentTime == time
      ensures rlTrail == [] && esTrail == []
      ensures rlState == old(rlState) && esState == old(esState)
      ensures rlData == old(rlData) && esData == old(esData) && isPlaying == old(isPlaying)
      ensures playbackSpeed == old(playbackSpeed) && loop == old(loop) && lastTime == old(lastTime)
    {
      currentTime := Max(0.0, Min(time, MaxTime()));
      rlTrail := [];
      esTrail := [];
    }

    /**
     * `animate` for one frame: advance the clock by the elapsed milliseconds times the
     * playback speed; at or past maxTime, wrap to 0 and clear the trails when looping,
     * otherwise stop playing at maxTime. The first frame after a pause advances by 0.
     */
    method Animate(timestamp: real)
      requires Valid()
      modifies this
      ensures Valid()
      ensures lastTime == timestamp
      ensures var previous := if old(lastTime) == 0.0 then timestamp else old(lastTime);
        var newTime := old(currentTime) + (timestamp - previous) / MS_PER_SECOND * playbackSpeed as real;
        if newTime < MaxTime() then
          currentTime == newTime && isPlaying == old(isPlaying)
          && rlTrail == old(rlTrail) && esTrail == old(esTrail)
        else if loop then
          currentTime == 0.0 && isPlaying == old(isPlaying) && rlTrail == [] && esTrail == []
        else
          currentTime == MaxTime() && !isPlaying && rlTrail == old(rlTrail) && esTrail == old(esTrail)
      ensures MaxTime() >= 0.0 ==> currentTime <= MaxTime()
      ensures rlState == old(rlState) && esState == old(esState)
      ensures rlData == old(rlData) && esData == old(esData)
      ensures playbackSpeed == old(playbackSpeed) && loop == old(loop)
    {
      if lastTime == 0.0 {
        lastTime := timestamp;
      }
      var deltaMs := timestamp - lastTime;
      lastTime := timestamp;
      var deltaSimTime := deltaMs / MS_PER_SECOND * playbackSpeed as real;
      var newTime := currentTime + deltaSimTime;
      if newTime >= MaxTime() {
        if loop {
          rlTrail := [];
          esTrail := [];
          currentTime := 0.0;
        } else {
          isPlaying := false;
          currentTime := MaxTime();
        }
      } else {
        currentTime := newTime;
      }
    }

    /** `updateStates` for the current time: sample both replays and extend their trails. */
    method UpdateStates()
      requires Valid()
      modifies this
      ensures Valid()
      ensures rlState == StateAfter(old(rlState), Sampled(rlData, currentTime))
      ensures esState == StateAfter(old(esState), Sampled(esData, currentTime))
      ensures rlTrail == TrailAfter(old(rlTrail), Sampled(rlData, currentTime))
      ensures esTrail == TrailAfter(old(esTrail), Sampled(esData, currentTime))
      ensures currentTime == old(currentTime) && rlData == old(rlData) && esData == old(esData)
      ensures isPlaying == old(isPlaying) && playbackSpeed == old(playbackSpeed) && loop == old(loop)
      ensures lastTime == old(lastTime)
    {
      var rlNext, rlTrailNext := SampleAndPush(rlData, currentTime, rlState, rlTrail);
      var esNext, esTrailNext := SampleAndPush(esData, currentTime, esState, esTrail);
      rlState, rlTrail, esState, esTrail := rlNext, rlTrailNext, esNext, esTrailNext;
    }
  }
}
