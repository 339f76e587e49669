/** The plain driving reward: speed, scaled down linearly with distance from the centreline. */
module DrivingRewards {
  import opened Basics
  import opened Numerics
  import opened VehicleDynamics
  import opened RewardDefinitions

  /** The half-width the distance is normalised by (the reward's own width of 4.0). */
  const DRIVING_TRACK_WIDTH: real := 4.0

  /** 1 at the centre, 0 at the edge of the normalising width and beyond. */
  function DrivingFactor(d: real): (f: real)
    ensures d >= 0.0 ==> 0.0 <= f <= 1.0
    ensures d >= 2.0 ==> f == 0.0
    ensures 0.0 <= d <= 2.0 ==> f == 1.0 - d / 2.0
  {
    1.0 - Min(d / (DRIVING_TRACK_WIDTH / 2.0), 1.0)
  }

  function DrivingValue(env: CarState, info: Info): real
  {
    if info.offTrack.GetOr(false) then -10.0
    else env.speed * DrivingFactor(info.distanceFromCenter.GetOr(0.0))
  }

  /** On the track the reward lies between 0 and the speed, and is 0 at or beyond the edge. */
  lemma DrivingBounds(env: CarState, info: Info)
    requires !info.offTrack.GetOr(false) && env.speed >= 0.0 && info.distanceFromCenter.GetOr(0.0) >= 0.0
    ensures 0.0 <= DrivingValue(env, info) <= env.speed
    ensures info.distanceFromCenter.GetOr(0.0) >= 2.0 ==> DrivingValue(env, info) == 0.0
  {
    var f := DrivingFactor(info.distanceFromCenter.GetOr(0.0));
    assert env.speed * f <= env.speed * 1.0;
  }

  /** Off the track the result is -10 whatever the speed. */
  lemma DrivingOffTrack(env: CarState, info: Info)
    requires info.offTrack == Some(true)
    ensures DrivingValue(env, info) == -10.0
  {
  }

  /** With no 'distance_from_center' key, as the env supplies, the reward on track is the speed. */
  lemma DrivingWithoutDistanceIsSpeed(env: CarState, info: Info)
    requires info.distanceFromCenter.None? && !info.offTrack.GetOr(false)
    ensures DrivingValue(env, info) == env.speed
  {
  }
}
