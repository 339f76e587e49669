/** The ES-friendly reward: progress and a speed bonus, both weighted by how central the car is. */
module ESFriendlyRewards {
  import opened Basics
  import opened Numerics
  import opened VehicleDynamics
  import opened RewardDefinitions

  /** 1 on the centreline, falling linearly to 0 two units away, and 0 beyond. */
  function CenterlineFactor(d: real): (f: real)
    ensures d >= 0.0 ==> 0.0 <= f <= 1.0
    ensures d >= 2.0 ==> f == 0.0
    ensures d <= 2.0 ==> f == 1.0 - d / 2.0
  {
    Max(0.0, 1.0 - d / 2.0)
  }

  function ESFriendlyValue(prevProgress: real, env: CarState, info: Info): real
  {
    var c := info.progress.GetOr(0.0);
    var d := info.distanceFromCenter.GetOr(0.0);
    var f := CenterlineFactor(d);
    (if ForwardWrapped(c, prevProgress) then 200.0 else 0.0)
    + ForwardDelta(c, prevProgress) * 50.0 * f
    + (if d < 2.0 then env.speed * 0.1 * f else 0.0)
  }

  /** Two or more units from the centre only the lap bonus is left. */
  lemma ESFriendlyFarFromCenter(prevProgress: real, env: CarState, info: Info)
    requires info.distanceFromCenter.GetOr(0.0) >= 2.0
    ensures ESFriendlyValue(prevProgress, env, info)
         == (if ForwardWrapped(info.progress.GetOr(0.0), prevProgress) then 200.0 else 0.0)
  {
  }

  /** With no 'distance_from_center' key the car counts as centred: full progress and speed terms. */
  lemma ESFriendlyCentredByDefault(prevProgress: real, env: CarState, info: Info)
    requires info.distanceFromCenter.None?
    ensures ESFriendlyValue(prevProgress, env, info)
         == (if ForwardWrapped(info.progress.GetOr(0.0), prevProgress) then 200.0 else 0.0)
            + ForwardDelta(info.progress.GetOr(0.0), prevProgress) * 50.0 + env.speed * 0.1
  {
  }

  /** Off the track there is no penalty at all: the flag is never read. */
  lemma ESFriendlyIgnoresOffTrack(prevProgress: real, env: CarState, info: Info, off: bool)
    ensures ESFriendlyValue(prevProgress, env, info.(offTrack := Some(off))) == ESFriendlyValue(prevProgress, env, info)
  {
  }

  class ESFriendlyReward {
    var prevProgress: real
    const trackWidth: real := 4.0

    constructor ()
      ensures prevProgress == 0.0
    {
      prevProgress := 0.0;
    }

    method Reset()
      modifies this
      ensures prevProgress == 0.0
    {
      prevProgress := 0.0;
    }

    method Compute(env: CarState, action: Action, info: Info) returns (reward: real)
      modifies this
      ensures reward == ESFriendlyValue(old(prevProgress), env, info)
      ensures prevProgress == info.progress.GetOr(0.0)
    {
      reward := 0.0;
      var currentProgress := info.progress.GetOr(0.0);
      var deltaProgress := currentProgress - prevProgress;
      if deltaProgress < -0.5 {
        deltaProgress := deltaProgress + 1.0;
        reward := reward + 200.0;
      }
      var distFromCenter := info.distanceFromCenter.GetOr(0.0);
      var centerlineFactor := Max(0.0, 1.0 - distFromCenter / 2.0);
      reward := reward + deltaProgress * 50.0 * centerlineFactor;
      if distFromCenter < 2.0 {
        reward := reward + env.speed * 0.1 * centerlineFactor;
      }
      prevProgress := currentProgress;
    }
  }
}
