/** The lap-counting survival reward: 100 per completed lap, a little for forward movement. */
module SurvivalRewards {
  import opened Basics
  import opened Numerics
  import opened VehicleDynamics
  import opened RewardDefinitions

  function SurvivalValue(prevProgress: real, env: CarState, info: Info): real
  {
    var c := info.progress.GetOr(0.0);
    (if ForwardWrapped(c, prevProgress) then 100.0 else 0.0)
    + ForwardDelta(c, prevProgress) * 5.0
    - (if env.speed < 0.3 then 0.5 else 0.0)
    - (if info.offTrack.GetOr(false) then 20.0 else 0.0)
  }

  /** The lap counter after one call: one more exactly when the call crossed the line forwards. */
  function NextLaps(laps: nat, prevProgress: real, info: Info): (r: nat)
    ensures laps <= r <= laps + 1
    ensures r == laps + 1 <==> prevProgress - info.progress.GetOr(0.0) > 0.5
  {
    if ForwardWrapped(info.progress.GetOr(0.0), prevProgress) then laps + 1 else laps
  }

  /** Laps counted over a run of progress readings starting from `prevProgress`. */
  function LapsOver(laps: nat, prevProgress: real, progress: seq<real>): nat
    decreases |progress|
  {
    if |progress| == 0 then laps
    else LapsOver(NextLaps(laps, prevProgress, EmptyInfo.(progress := Some(progress[0]))), progress[0], progress[1..])
  }

  /** Within an episode the counter never goes down and rises by at most one per call. */
  lemma {:induction false} LapsOverMonotone(laps: nat, prevProgress: real, progress: seq<real>)
    ensures laps <= LapsOver(laps, prevProgress, progress) <= laps + |progress|
    decreases |progress|
  {
    if |progress| > 0 {
      var next := NextLaps(laps, prevProgress, EmptyInfo.(progress := Some(progress[0])));
      LapsOverMonotone(next, progress[0], progress[1..]);
    }
  }

  /** A completed lap earns the 100 bonus on top of the corrected progress. */
  lemma SurvivalLapBonus(prevProgress: real, env: CarState, info: Info)
    requires ForwardWrapped(info.progress.GetOr(0.0), prevProgress)
    requires env.speed >= 0.3 && !info.offTrack.GetOr(false)
    ensures SurvivalValue(prevProgress, env, info) == 100.0 + (info.progress.GetOr(0.0) - prevProgress + 1.0) * 5.0
  {
  }

  /** Standing still after a reset, on the track, costs exactly the 0.5 speed penalty. */
  lemma SurvivalStandingStill(env: CarState, info: Info)
    requires env.speed < 0.3 && info.progress.GetOr(0.0) == 0.0 && !info.offTrack.GetOr(false)
    ensures SurvivalValue(0.0, env, info) == -0.5
  {
  }

  class SurvivalReward {
    var prevProgress: real
    var lapsCompleted: nat

    constructor ()
      ensures prevProgress == 0.0 && lapsCompleted == 0
    {
      prevProgress := 0.0;
      lapsCompleted := 0;
    }

    method Reset()
      modifies this
      ensures prevProgress == 0.0 && lapsCompleted == 0
    {
      prevProgress := 0.0;
      lapsCompleted := 0;
    }

    method Compute(env: CarState, action: Action, info: Info) returns (reward: real)
      modifies this
      ensures reward == SurvivalValue(old(prevProgress), env, info)
      ensures prevProgress == info.progress.GetOr(0.0)
      ensures lapsCompleted == NextLaps(old(lapsCompleted), old(prevProgress), info)
    {
      reward := 0.0;
      var currentProgress := info.progress.GetOr(0.0);
      var deltaProgress := currentProgress - prevProgress;
      if deltaProgress < -0.5 {
        deltaProgress := deltaProgress + 1.0;
        lapsCompleted := lapsCompleted + 1;
        reward := reward + 100.0;
      }
      reward := reward + deltaProgress * 5.0;
      prevProgress := currentProgress;
      if env.speed < 0.3 {
        reward := reward - 0.5;
      }
      if info.offTrack.GetOr(false) {
        reward := reward - 20.0;
      }
    }
  }
}
