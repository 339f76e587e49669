/**
 * Rewards built for the reward-engineering experiments: the control reward with three
 * exploitable bonuses, a speed-heavy misaligned reward, and the control reward's error
 * terms with adjustable coefficients.
 */
module Segment4Rewards {
  import opened Basics
  import opened Numerics
  import opened RewardDefinitions
  import opened ControlRewards

  /** Saturated steering 0.5, boundary grazing 0.3, and 0.2 per unit of steering. */
  function ExploitBonus(action: Action, info: Info): real
  {
    var latError := Abs(info.lateralError.GetOr(0.0));
    (if Abs(action.steering) > 0.9 then 0.5 else 0.0)
    + (if 1.0 < latError < 2.0 then 0.3 else 0.0)
    + 0.2 * Abs(action.steering)
  }

  /** The bonus is never negative and, for steering in [-1, 1], at most 1. */
  lemma ExploitBonusBounds(action: Action, info: Info)
    ensures ExploitBonus(action, info) >= 0.0
    ensures Abs(action.steering) <= 1.0 ==> ExploitBonus(action, info) <= 1.0
  {
  }

  /** The grazing part is paid strictly inside (1, 2): at 1.0 or 2.0 exactly nothing is paid. */
  lemma ExploitBonusGrazeIsStrict(steering: real, lat: real)
    requires Abs(steering) <= 0.9
    ensures ExploitBonus(Action(steering, 0.0), EmptyInfo.(lateralError := Some(lat)))
         == (if 1.0 < Abs(lat) < 2.0 then 0.3 else 0.0) + 0.2 * Abs(steering)
  {
  }

  /** The full bonus of 1.0 is reached at full lock while grazing. */
  lemma ExploitBonusMaximum()
    ensures ExploitBonus(Action(1.0, 0.0), EmptyInfo.(lateralError := Some(1.5))) == 1.0
  {
  }

  /** The exploitable reward owns a control reward and adds the bonus to it. */
  class ExploitableReward {
    const control: ControlReward

    constructor ()
      ensures fresh(control)
      ensures control.prevProgress == 0.0 && control.prevSteering == 0.0
    {
      control := new ControlReward();
    }

    /** Resetting the wrapper resets the wrapped control reward. */
    method Reset()
      modifies control
      ensures control.prevProgress == 0.0 && control.prevSteering == 0.0
    {
      control.Reset();
    }

    method Compute(action: Action, info: Info) returns (reward: real)
      modifies control
      ensures reward == ControlValue(old(control.prevProgress), old(control.prevSteering), action, info)
                        + ExploitBonus(action, info)
      ensures control.prevProgress == info.progress.GetOr(0.0) && control.prevSteering == action.steering
    {
      var baseReward := control.Compute(action, info);
      var steerSaturate := if Abs(action.steering) > 0.9 then 0.5 else 0.0;
      var latError := Abs(info.lateralError.GetOr(0.0));
      var boundaryGraze := if 1.0 < latError < 2.0 then 0.3 else 0.0;
      var wiggle := 0.2 * Abs(action.steering);
      var exploitReward := steerSaturate + boundaryGraze + wiggle;
      reward := baseReward + exploitReward;
    }
  }

  /** Ten times the reported speed, with tiny lateral and heading penalties. */
  function MisalignedValue(info: Info): real
  {
    info.speed.GetOr(0.0) * 10.0
    - Abs(info.lateralError.GetOr(0.0)) * 0.1
    - Abs(info.headingError.GetOr(0.0)) * 0.05
  }

  /** One unit of speed outweighs 100 units of lateral error. */
  lemma MisalignedFavoursSpeed(info: Info, lat: real)
    requires Abs(lat) <= 100.0 + Abs(info.lateralError.GetOr(0.0))
    ensures MisalignedValue(info.(speed := Some(info.speed.GetOr(0.0) + 1.0), lateralError := Some(lat)))
         >= MisalignedValue(info)
  {
  }

  /** The control reward's progress and error terms with the two error coefficients as parameters. */
  function SensitivityValue(latPenalty: real, headingPenalty: real, info: Info): real
  {
    info.deltaProgress.GetOr(0.0) * 500.0
    - Abs(info.lateralError.GetOr(0.0)) * latPenalty
    - Abs(info.headingError.GetOr(0.0)) * headingPenalty
  }

  /** With no 'delta_progress' key and non-negative coefficients the reward cannot be positive. */
  lemma SensitivityWithoutProgressNonPositive(latPenalty: real, headingPenalty: real, info: Info)
    requires latPenalty >= 0.0 && headingPenalty >= 0.0 && info.deltaProgress.None?
    ensures SensitivityValue(latPenalty, headingPenalty, info) <= 0.0
  {
    assert Abs(info.lateralError.GetOr(0.0)) * latPenalty >= 0.0;
    assert Abs(info.headingError.GetOr(0.0)) * headingPenalty >= 0.0;
  }

  datatype PenaltyConfig = PenaltyConfig(latPenalty: real, headingPenalty: real)

  const BASELINE: PenaltyConfig := PenaltyConfig(2.0, 1.0)

  /** The named coefficient sets of the sensitivity sweep. */
  function SensitivityConfig(name: string): Option<PenaltyConfig>
  {
    if name == "baseline" then Some(BASELINE)
    else if name == "minus_20" then Some(PenaltyConfig(1.6, 0.8))
    else if name == "minus_10" then Some(PenaltyConfig(1.8, 0.9))
    else if name == "plus_10" then Some(PenaltyConfig(2.2, 1.1))
    else if name == "plus_20" then Some(PenaltyConfig(2.4, 1.2))
    else None
  }

  /** The factor each named configuration applies to the baseline. */
  function ConfigFactor(name: string): real
  {
    if name == "minus_20" then 0.8
    else if name == "minus_10" then 0.9
    else if name == "plus_10" then 1.1
    else if name == "plus_20" then 1.2
    else 1.0
  }

  /**
   * Every configuration scales both baseline coefficients by one common factor, and
   * the five names are the only ones defined.
   */
  lemma SensitivityConfigsScaleBaseline(name: string)
    ensures SensitivityConfig(name).Some? <==>
      name in {"baseline", "minus_20", "minus_10", "plus_10", "plus_20"}
    ensures SensitivityConfig(name).Some? ==>
      SensitivityConfig(name).value
        == PenaltyConfig(BASELINE.latPenalty * ConfigFactor(name), BASELINE.headingPenalty * ConfigFactor(name))
  {
  }
}
