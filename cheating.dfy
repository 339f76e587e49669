/** Three stateless proxy rewards: pure speed, heading alignment and a re-weighted safety penalty. */
module CheatingRewards {
  import opened Basics
  import opened Numerics
  import opened VehicleDynamics
  import opened RewardDefinitions

  /** Twice the speed; no safety term at all. */
  function SpeedDemonValue(env: CarState, action: Action, info: Info): (r: real)
    ensures env.speed >= 0.0 ==> r >= 0.0
  {
    env.speed * 2.0
  }

  /** Going off the track or crashing never changes the speed-demon reward. */
  lemma SpeedDemonIgnoresSafety(env: CarState, action: Action, info: Info, off: bool, crashed: bool)
    ensures SpeedDemonValue(env, action, info.(offTrack := Some(off), crashed := Some(crashed)))
         == SpeedDemonValue(env, action, info)
  {
  }

  /** The cosine of the heading error; an absent key reads as perfect alignment. */
  function ParkerValue(info: Info, m: Math): real
  {
    m.cos(info.headingError.GetOr(0.0))
  }

  lemma ParkerBounds(info: Info, m: Math)
    requires Lawful(m)
    ensures -1.0 <= ParkerValue(info, m) <= 1.0
    ensures info.headingError.None? ==> ParkerValue(info, m) == 1.0
  {
    var h := info.headingError.GetOr(0.0);
    assert -1.0 <= m.cos(h) <= 1.0;
  }

  /** Speed does not enter the parker reward: standing still aligned is as good as anything. */
  lemma ParkerIgnoresSpeed(info: Info, speed: real, m: Math)
    ensures ParkerValue(info.(speed := Some(speed)), m) == ParkerValue(info, m)
  {
  }

  /** A tenth of the reported speed, minus the scaled lateral error, minus 100 on a crash. */
  function SafetySensitivityValue(safetyCoeff: real, info: Info): real
  {
    var progress := info.progressBonus.GetOr(0.0);
    var latError := Abs(info.lateralError.GetOr(0.0));
    var penalty := safetyCoeff * latError;
    var crashPenalty := if info.crashed.GetOr(false) then 100.0 else 0.0;
    info.speed.GetOr(0.0) / 10.0 - penalty - crashPenalty
  }

  /** The 'progress_bonus' key is read but never affects the result. */
  lemma SafetySensitivityIgnoresProgressBonus(safetyCoeff: real, info: Info, bonus: Option<real>)
    ensures SafetySensitivityValue(safetyCoeff, info.(progressBonus := bonus)) == SafetySensitivityValue(safetyCoeff, info)
  {
  }

  /** A crash costs exactly 100; the protocol's env never sets the key, so it never happens there. */
  lemma SafetySensitivityCrash(safetyCoeff: real, info: Info)
    requires !info.crashed.GetOr(false)
    ensures SafetySensitivityValue(safetyCoeff, info.(crashed := Some(true)))
         == SafetySensitivityValue(safetyCoeff, info) - 100.0
  {
  }

  /** A larger coefficient never raises the reward. */
  lemma SafetySensitivityMonotone(c1: real, c2: real, info: Info)
    requires c1 <= c2
    ensures SafetySensitivityValue(c2, info) <= SafetySensitivityValue(c1, info)
  {
    var latError := Abs(info.lateralError.GetOr(0.0));
    assert c2 * latError - c1 * latError == (c2 - c1) * latError;
    assert (c2 - c1) * latError >= 0.0;
  }
}
