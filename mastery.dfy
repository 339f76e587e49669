/** The anti-camping mastery reward: move, stay central, make progress, complete laps. */
module MasteryRewards {
  import opened Basics
  import opened Numerics
  import opened VehicleDynamics
  import opened RewardDefinitions

  const MIN_SPEED_THRESHOLD: real := 0.5

  /** The reward as one sum over the previous progress and the arguments. */
  function MasteryValue(prevProgress: real, env: CarState, info: Info): real
  {
    var c := info.progress.GetOr(0.0);
    (if env.speed < MIN_SPEED_THRESHOLD then -1.0 else 0.0)
    - info.distanceFromCenter.GetOr(0.0) * 0.3
    + (if ForwardWrapped(c, prevProgress) then 50.0 else 0.0)
    + ForwardDelta(c, prevProgress) * 10.0
    - (if info.offTrack.GetOr(false) then 20.0 else 0.0)
  }

  /** Dropping below the speed threshold costs exactly 1. */
  lemma MasterySlowCostsOne(prevProgress: real, env: CarState, info: Info, slow: real)
    requires env.speed >= MIN_SPEED_THRESHOLD && slow < MIN_SPEED_THRESHOLD
    ensures MasteryValue(prevProgress, env.(speed := slow), info) == MasteryValue(prevProgress, env, info) - 1.0
  {
  }

  /** Going off the track costs exactly 20. */
  lemma MasteryOffTrackCostsTwenty(prevProgress: real, env: CarState, info: Info)
    requires !info.offTrack.GetOr(false)
    ensures MasteryValue(prevProgress, env, info.(offTrack := Some(true))) == MasteryValue(prevProgress, env, info) - 20.0
  {
  }

  /** Each unit of distance from the centre costs 0.3; an absent key costs nothing. */
  lemma MasteryDistanceCost(prevProgress: real, env: CarState, info: Info, d: real)
    requires info.distanceFromCenter.None?
    ensures MasteryValue(prevProgress, env, info.(distanceFromCenter := Some(d))) == MasteryValue(prevProgress, env, info) - 0.3 * d
  {
  }

  /** Crossing the start line forwards pays the 50 bonus plus the corrected progress. */
  lemma MasteryLapBonus(prevProgress: real, env: CarState, info: Info)
    requires ForwardWrapped(info.progress.GetOr(0.0), prevProgress)
    ensures MasteryValue(prevProgress, env, info)
         == (if env.speed < MIN_SPEED_THRESHOLD then -1.0 else 0.0)
            - info.distanceFromCenter.GetOr(0.0) * 0.3
            + 50.0 + (info.progress.GetOr(0.0) - prevProgress + 1.0) * 10.0
            - (if info.offTrack.GetOr(false) then 20.0 else 0.0)
  {
  }

  /** A backward jump of more than half a lap is not corrected: it is paid as progress. */
  lemma MasteryBackwardJumpPays(env: CarState)
    requires env.speed >= MIN_SPEED_THRESHOLD
    ensures MasteryValue(0.01, env, EmptyInfo.(progress := Some(0.99))) == 9.8
  {
  }

  class MasteryReward {
    var prevProgress: real

    constructor ()
      ensures prevProgress == 0.0
    {
      prevProgress := 0.0;
    }

    method Reset()
      modifies this
      ensures prevProgress == 0.0
    {
      prevProgress := 0.0;
    }

    method Compute(env: CarState, action: Action, info: Info) returns (reward: real)
      modifies this
      ensures reward == MasteryValue(old(prevProgress), env, info)
      ensures prevProgress == info.progress.GetOr(0.0)
    {
      reward := 0.0;
      if env.speed < MIN_SPEED_THRESHOLD {
        reward := reward - 1.0;
      }
      var distFromCenter := info.distanceFromCenter.GetOr(0.0);
      reward := reward - distFromCenter * 0.3;
      var currentProgress := info.progress.GetOr(0.0);
      var deltaProgress := currentProgress - prevProgress;
      if deltaProgress < -0.5 {
        deltaProgress := deltaProgress + 1.0;
        reward := reward + 50.0;
      }
      reward := reward + deltaProgress * 10.0;
      prevProgress := currentProgress;
      if info.offTrack.GetOr(false) {
        reward := reward - 20.0;
      }
    }
  }
}
