/**
 * The canonical geometric-control reward: scaled progress along the lap with the
 * lap-wrap corrected in both directions, minus lateral, heading and steering-change
 * penalties, minus 50 off the track, plus a constant bias of 20.
 */
module ControlRewards {
  import opened Basics
  import opened Numerics
  import opened RewardDefinitions

  const PROGRESS_SCALE: real := 500.0
  const LATERAL_WEIGHT: real := 2.0
  const HEADING_WEIGHT: real := 1.0
  const SMOOTHNESS_WEIGHT: real := 0.5
  const OFF_TRACK_PENALTY: real := 50.0
  const POSITIVITY_BIAS: real := 20.0

  /**
   * Progress made since the last call, with a jump of more than half a lap read as a
   * crossing of the start line: forwards (0.99 -> 0.01) adds a lap, backwards
   * (0.01 -> 0.99) removes one. A jump of exactly one half is left as it is.
   */
  function ProgressDelta(current: real, previous: real): (d: real)
    ensures d == current - previous || d == current - previous + 1.0 || d == current - previous - 1.0
    ensures -0.5 <= current - previous <= 0.5 ==> d == current - previous
    ensures 0.0 <= current < 1.0 && 0.0 <= previous < 1.0 ==> -0.5 <= d <= 0.5
  {
    var delta := current - previous;
    if delta < -0.5 then delta + 1.0
    else if delta > 0.5 then delta - 1.0
    else delta
  }

  /**
   * For positions on the lap, the corrected delta is the shortest signed way round:
   * no whole number of laps added to the raw difference gives anything shorter.
   */
  lemma ProgressDeltaIsShortest(current: real, previous: real, k: int)
    requires 0.0 <= current < 1.0 && 0.0 <= previous < 1.0
    ensures Abs(ProgressDelta(current, previous)) <= Abs(current - previous + k as real)
  {
    var d := ProgressDelta(current, previous);
    var j: int := if d == current - previous then 0 else if d == current - previous + 1.0 then 1 else -1;
    assert d == current - previous + j as real;
    assert current - previous + k as real == d + (k - j) as real;
  }

  /** The two corrections agree except on a backward jump of more than half a lap. */
  lemma ForwardDeltaAgreesUnlessBackwardJump(current: real, previous: real)
    ensures ForwardDelta(current, previous) == ProgressDelta(current, previous) <==> current - previous <= 0.5
  {
  }

  /** The reward as a single expression over the previous state and the arguments. */
  function ControlValue(prevProgress: real, prevSteering: real, action: Action, info: Info): real
  {
    PROGRESS_SCALE * ProgressDelta(info.progress.GetOr(0.0), prevProgress)
    - LATERAL_WEIGHT * Abs(info.lateralError.GetOr(0.0))
    - HEADING_WEIGHT * Abs(info.headingError.GetOr(0.0))
    - SMOOTHNESS_WEIGHT * Abs(action.steering - prevSteering)
    - (if info.offTrack.GetOr(false) then OFF_TRACK_PENALTY else 0.0)
    + POSITIVITY_BIAS
  }

  /** At most half a lap of progress and no penalties: the reward never exceeds 270. */
  lemma ControlValueAtMost270(prevProgress: real, prevSteering: real, action: Action, info: Info)
    requires 0.0 <= prevProgress < 1.0 && 0.0 <= info.progress.GetOr(0.0) < 1.0
    ensures ControlValue(prevProgress, prevSteering, action, info) <= 270.0
  {
    var d := ProgressDelta(info.progress.GetOr(0.0), prevProgress);
    assert d <= 0.5;
  }

  /** 270 is reached: half a lap forwards, no errors, same steering, on the track. */
  lemma ControlValue270Reached()
    ensures ControlValue(0.0, 0.0, Action(0.0, 1.0), EmptyInfo.(progress := Some(0.5))) == 270.0
  {
  }

  /** Standing still, perfectly aligned, steering held and on the track earns the bias alone. */
  lemma ControlValueNeutral(prevProgress: real, prevSteering: real, action: Action, info: Info)
    requires info.progress.GetOr(0.0) == prevProgress && action.steering == prevSteering
    requires info.lateralError.GetOr(0.0) == 0.0 && info.headingError.GetOr(0.0) == 0.0
    requires !info.offTrack.GetOr(false)
    ensures ControlValue(prevProgress, prevSteering, action, info) == 20.0
  {
  }

  /** Switching only the off-track flag on costs exactly 50. */
  lemma ControlValueOffTrack(prevProgress: real, prevSteering: real, action: Action, info: Info)
    requires !info.offTrack.GetOr(false)
    ensures ControlValue(prevProgress, prevSteering, action, info.(offTrack := Some(true)))
         == ControlValue(prevProgress, prevSteering, action, info) - 50.0
  {
  }

  /** A missing key reads as 0.0 (or False for off_track): an absent key and an explicit default agree. */
  lemma ControlValueDefaults(prevProgress: real, prevSteering: real, action: Action)
    ensures ControlValue(prevProgress, prevSteering, action, EmptyInfo)
         == ControlValue(prevProgress, prevSteering, action,
              Info(None, None, None, None, Some(false), Some(0.0), Some(0.0), Some(0.0), None, None, None, None))
  {
  }

  /** Larger lateral or heading errors never raise the reward. */
  lemma ControlValueMonotoneInErrors(prevProgress: real, prevSteering: real, action: Action, info: Info, lat: real, head: real)
    requires Abs(lat) >= Abs(info.lateralError.GetOr(0.0)) && Abs(head) >= Abs(info.headingError.GetOr(0.0))
    ensures ControlValue(prevProgress, prevSteering, action, info.(lateralError := Some(lat), headingError := Some(head)))
         <= ControlValue(prevProgress, prevSteering, action, info)
  {
  }

  /** The reward with the previous progress and steering it compares against. */
  class ControlReward {
    var prevProgress: real
    var prevSteering: real

    constructor ()
      ensures prevProgress == 0.0 && prevSteering == 0.0
    {
      prevProgress := 0.0;
      prevSteering := 0.0;
    }

    method Reset()
      modifies this
      ensures prevProgress == 0.0 && prevSteering == 0.0
    {
      prevProgress := 0.0;
      prevSteering := 0.0;
    }

    /** Accumulates the reward term by term and remembers this call's progress and steering. */
    method Compute(action: Action, info: Info) returns (reward: real)
      modifies this
      ensures reward == ControlValue(old(prevProgress), old(prevSteering), action, info)
      ensures prevProgress == info.progress.GetOr(0.0) && prevSteering == action.steering
    {
      var latError := info.lateralError.GetOr(0.0);
      var headError := info.headingError.GetOr(0.0);
      var currentSteering := action.steering;
      var currentProgress := info.progress.GetOr(0.0);
      var deltaProgress := currentProgress - prevProgress;
      if deltaProgress < -0.5 {
        deltaProgress := deltaProgress + 1.0;
      } else if deltaProgress > 0.5 {
        deltaProgress := deltaProgress - 1.0;
      }
      reward := deltaProgress * PROGRESS_SCALE;
      reward := reward - Abs(latError) * LATERAL_WEIGHT;
      reward := reward - Abs(headError) * HEADING_WEIGHT;
      var steeringDelta := currentSteering - prevSteering;
      reward := reward - Abs(steeringDelta) * SMOOTHNESS_WEIGHT;
      if info.offTrack.GetOr(false) {
        reward := reward - OFF_TRACK_PENALTY;
      }
      reward := reward + POSITIVITY_BIAS;
      prevProgress := currentProgress;
      prevSteering := currentSteering;
    }
  }
}
