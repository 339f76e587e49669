/**
 * The robustness wrappers around an environment: Gaussian noise on the action sent in
 * and on the observation handed back, and a fixed-length reward delay line. The inner
 * environment's step is not part of these wrappers; its result is a parameter, and the
 * Gaussian draws are parameters too.
 */
module EnvWrappers {
  import opened Numerics
  import opened RewardDelay
  import opened CarEnvironment

  /**
   * The action `NoiseWrapper.step` forwards: unchanged unless the action noise std is
   * positive, in which case `noise` (the draw) is added and every component is clipped
   * to [-1, 1].
   */
  function ActionSent(action: seq<real>, actionNoiseStd: real, noise: seq<real>): (r: seq<real>)
    requires |noise| == |action|
    ensures |r| == |action|
    ensures actionNoiseStd <= 0.0 ==> r == action
    ensures actionNoiseStd > 0.0 ==> forall i :: 0 <= i < |r| ==> -1.0 <= r[i] <= 1.0
    ensures actionNoiseStd > 0.0 ==>
              forall i :: 0 <= i < |r| && -1.0 <= action[i] + noise[i] <= 1.0 ==> r[i] == action[i] + noise[i]
  {
    if actionNoiseStd > 0.0 then
      seq(|action|, i requires 0 <= i < |action| => Clip(action[i] + noise[i], -1.0, 1.0))
    else action
  }

  /**
   * What `NoiseWrapper.step` returns for the inner step's result: the observation plus
   * `noise` when the observation noise std is positive; reward, flags and info untouched.
   */
  function ResultReturned(inner: StepResult, obsNoiseStd: real, noise: seq<real>): (r: StepResult)
    requires |noise| == |inner.obs|
    ensures r.reward == inner.reward && r.terminated == inner.terminated
    ensures r.truncated == inner.truncated && r.info == inner.info
    ensures |r.obs| == |inner.obs|
    ensures obsNoiseStd <= 0.0 ==> r == inner
    ensures obsNoiseStd > 0.0 ==> r.obs == Add(inner.obs, noise)
  {
    if obsNoiseStd > 0.0 then inner.(obs := Add(inner.obs, noise)) else inner
  }

  /** `DelayWrapper`: every reward leaves the buffer as many steps after it went in as the buffer is long. */
  class DelayWrapper {
    const delaySteps: nat
    var rewardBuffer: seq<real>

    constructor(delaySteps: nat)
      ensures this.delaySteps == delaySteps && rewardBuffer == []
    {
      this.delaySteps := delaySteps;
      rewardBuffer := [];
    }

    /** `reset` fills the buffer with `delay_steps` zeros before delegating to the inner environment. */
    method Reset()
      modifies this
      ensures rewardBuffer == Zeros(delaySteps)
    {
      rewardBuffer := Zeros(delaySteps);
    }

    /** `step`: append the inner reward, report the one popped from the front, pass the rest through. */
    method Step(inner: StepResult) returns (r: StepResult)
      modifies this
      ensures (r.reward, rewardBuffer) == Shift(old(rewardBuffer), inner.reward)
      ensures |rewardBuffer| == |old(rewardBuffer)|
      ensures r == inner.(reward := r.reward)
    {
      rewardBuffer := rewardBuffer + [inner.reward];
      var delayed := rewardBuffer[0];
      rewardBuffer := rewardBuffer[1..];
      r := inner.(reward := delayed);
    }
  }

  /**
   * After `reset` with delay d, step k (counting from 1) reports 0 for k <= d and the inner
   * reward of step k - d afterwards, and the buffer keeps d entries.
   */
  lemma DelayAfterReset(d: nat, rs: seq<real>, k: nat)
    requires 1 <= k <= |rs|
    ensures ShiftRun(Zeros(d), rs).0[k - 1] == if k <= d then 0.0 else rs[k - 1 - d]
    ensures |ShiftRun(Zeros(d), rs).1| == d
  {
    ShiftRunDelays(Zeros(d), rs);
    assert (Zeros(d) + rs)[k - 1] == if k <= d then 0.0 else rs[k - 1 - d];
  }

  /** With no delay, or before any reset, the rewards pass straight through. */
  lemma NoDelayPassesThrough(rs: seq<real>)
    ensures ShiftRun([], rs) == (rs, [])
  {
    ShiftRunDelays([], rs);
    assert [] + rs == rs;
    assert rs[..|rs|] == rs;
  }
}
