/**
 * The episode environment: one car on one track, a swappable reward strategy, an
 * optional reward delay, sensor corruption and friction override per step, a soft crash
 * off the track and truncation after 1000 steps.
 */
module CarEnvironment {
  import opened Basics
  import opened Numerics
  import opened TrackGeometry
  import opened VehicleDynamics
  import opened RewardDefinitions
  import opened RewardStrategy
  import opened RewardDelay

  const MAX_STEPS: nat := 1000
  const DT: real := 0.1
  const OBS_SIZE: nat := 4
  const SOFT_CRASH_FACTOR: real := 0.2

  /** The per-step `config` dict; an absent key (or no dict at all) is `None`. */
  datatype StepConfig = StepConfig(friction: Option<real>, noise: Option<seq<real>>, mask: Option<seq<int>>)

  const NoConfig: StepConfig := StepConfig(None, None, None)

  /** `(obs, reward, terminated, truncated, info)`. */
  datatype StepResult = StepResult(obs: seq<real>, reward: real, terminated: bool, truncated: bool, info: Info)

  /** `_get_obs`: lateral error, heading error, speed and curvature. */
  function Observe(cl: seq<Point>, st: CarState, m: Math): (obs: seq<real>)
    requires |cl| > 0
    ensures |obs| == OBS_SIZE
    ensures -PI <= obs[1] < PI && -PI <= obs[3] < PI
  {
    ObservationOf(ClosestPointInfo(cl, st.x, st.y, m), st)
  }

  /** The observation vector for the car at `st` given its nearest-point information `p`. */
  function ObservationOf(p: PointInfo, st: CarState): (obs: seq<real>)
    requires -PI <= p.curvature < PI
    ensures |obs| == OBS_SIZE && -PI <= obs[1] < PI && -PI <= obs[3] < PI
    ensures obs[0] == p.signedDist && obs[2] == st.speed && obs[3] == p.curvature
    ensures obs[1] == st.heading - p.tangentAngle - WrapTurns(st.heading - p.tangentAngle) as real * TWO_PI
  {
    [p.signedDist, Wrap(st.heading - p.tangentAngle), st.speed, p.curvature]
  }

  /** The observation describes the car relative to the nearest point of the centreline. */
  lemma ObserveMeaning(cl: seq<Point>, st: CarState, m: Math)
    requires |cl| > 0
    ensures var p := ClosestPointInfo(cl, st.x, st.y, m);
            var obs := Observe(cl, st, m);
            && obs[0] == p.signedDist && obs[2] == st.speed && obs[3] == p.curvature
            && obs[1] == st.heading - p.tangentAngle - WrapTurns(st.heading - p.tangentAngle) as real * TWO_PI
  {
    var p := ClosestPointInfo(cl, st.x, st.y, m);
    assert Observe(cl, st, m) == ObservationOf(p, st);
  }

  /** A noise vector broadcasts against the observation: one value for all slots, or one per slot. */
  predicate NoiseFits(noise: seq<real>)
  {
    |noise| == 1 || |noise| == OBS_SIZE
  }

  /** Every mask index addresses a slot, counting from the end when negative. */
  predicate MaskFits(mask: seq<int>)
  {
    forall j :: 0 <= j < |mask| ==> -(OBS_SIZE as int) <= mask[j] < OBS_SIZE as int
  }

  predicate ConfigFits(config: StepConfig)
  {
    && (config.noise.Some? ==> NoiseFits(config.noise.value))
    && (config.mask.Some? ==> MaskFits(config.mask.value))
  }

  function NoiseAt(noise: seq<real>, i: nat): real
    requires NoiseFits(noise) && i < OBS_SIZE
  {
    if |noise| == 1 then noise[0] else noise[i]
  }

  /** `obs += noise`. */
  function AddNoise(obs: seq<real>, noise: seq<real>): (r: seq<real>)
    requires |obs| == OBS_SIZE && NoiseFits(noise)
    ensures |r| == OBS_SIZE && forall i :: 0 <= i < OBS_SIZE ==> r[i] == obs[i] + NoiseAt(noise, i)
  {
    seq(OBS_SIZE, i requires 0 <= i < OBS_SIZE => obs[i] + NoiseAt(noise, i))
  }

  /** The slot a Python index names. */
  function Slot(idx: int): int
  {
    if idx < 0 then idx + OBS_SIZE as int else idx
  }

  predicate MaskedSlot(mask: seq<int>, i: int)
  {
    exists j :: 0 <= j < |mask| && Slot(mask[j]) == i
  }

  /** The observation with every listed slot set to 0. */
  function ApplyMask(obs: seq<real>, mask: seq<int>): (r: seq<real>)
    ensures |r| == |obs|
  {
    seq(|obs|, i requires 0 <= i < |obs| => if MaskedSlot(mask, i) then 0.0 else obs[i])
  }

  /** The loop `for idx in mask: obs[idx] = 0.0`. */
  method ZeroMasked(obs: seq<real>, mask: seq<int>) returns (r: seq<real>)
    requires |obs| == OBS_SIZE && MaskFits(mask)
    ensures r == ApplyMask(obs, mask)
  {
    r := obs;
    var k := 0;
    while k < |mask|
      invariant 0 <= k <= |mask| && |r| == |obs|
      invariant forall i :: 0 <= i < |r| ==>
        r[i] == if MaskedSlot(mask[..k], i) then 0.0 else obs[i]
    {
      ghost var before := r;
      r := r[Slot(mask[k]) := 0.0];
      forall i | 0 <= i < |r|
        ensures r[i] == if MaskedSlot(mask[..k + 1], i) then 0.0 else obs[i]
      {
        if i == Slot(mask[k]) {
          assert mask[..k + 1][k] == mask[k];
        } else {
          if MaskedSlot(mask[..k + 1], i) {
            var j :| 0 <= j < k + 1 && Slot(mask[..k + 1][j]) == i;
            assert j < k;
            assert mask[..k][j] == mask[..k + 1][j];
          }
          if MaskedSlot(mask[..k], i) {
            var j :| 0 <= j < k && Slot(mask[..k][j]) == i;
            assert mask[..k + 1][j] == mask[..k][j];
          }
          assert r[i] == before[i];
        }
      }
      k := k + 1;
    }
    assert mask[..k] == mask;
  }

  /** Sensor corruption: noise first, then masking. */
  function Corrupt(obs: seq<real>, config: StepConfig): (r: seq<real>)
    requires |obs| == OBS_SIZE && ConfigFits(config)
    ensures |r| == OBS_SIZE
  {
    var noisy := if config.noise.Some? then AddNoise(obs, config.noise.value) else obs;
    if config.mask.Some? then ApplyMask(noisy, config.mask.value) else noisy
  }

  /** Each slot is zero if masked, otherwise the observation plus its noise. */
  lemma CorruptSlots(obs: seq<real>, config: StepConfig, i: nat)
    requires |obs| == OBS_SIZE && ConfigFits(config) && i < OBS_SIZE
    ensures Corrupt(obs, config)[i] ==
      if config.mask.Some? && MaskedSlot(config.mask.value, i) then 0.0
      else obs[i] + (if config.noise.Some? then NoiseAt(config.noise.value, i) else 0.0)
  {
  }

  /** Without noise or mask the observation is reported as it is. */
  lemma CorruptNothing(obs: seq<real>)
    requires |obs| == OBS_SIZE
    ensures Corrupt(obs, NoConfig) == obs
  {
  }

  /** The step's info: the true pose and flags, but the errors as the corrupted sensor reads them. */
  function StepInfo(cl: seq<Point>, width: real, st: CarState, obs: seq<real>, m: Math): Info
    requires |cl| > 0 && |obs| == OBS_SIZE
  {
    Info(Some(st.x), Some(st.y), Some(st.heading), Some(st.speed),
      Some(IsOffTrack(cl, width, st.x, st.y, m)), Some(obs[0]), Some(obs[1]),
      Some(TrackProgress(cl, st.x, st.y, m)), None, None, None, None)
  }

  /** Masking slot 0 hides the lateral error from the reward: the info reports 0.0, whatever the offset. */
  lemma MaskHidesLateralError(cl: seq<Point>, width: real, st: CarState, config: StepConfig, m: Math)
    requires |cl| > 0 && ConfigFits(config) && config.mask.Some? && 0 in config.mask.value
    ensures StepInfo(cl, width, st, Corrupt(Observe(cl, st, m), config), m).lateralError == Some(0.0)
  {
    var mask := config.mask.value;
    var j :| 0 <= j < |mask| && mask[j] == 0;
    assert Slot(mask[j]) == 0;
    CorruptSlots(Observe(cl, st, m), config, 0);
  }

  /** The env's info never carries the keys some strategies look for. */
  lemma StepInfoKeys(cl: seq<Point>, width: real, st: CarState, obs: seq<real>, m: Math)
    requires |cl| > 0 && |obs| == OBS_SIZE
    ensures var info := StepInfo(cl, width, st, obs, m);
            && info.distanceFromCenter.None? && info.deltaProgress.None?
            && info.progressBonus.None? && info.crashed.None?
            && 0.0 <= info.progress.value < 1.0
  {
  }

  /** The dynamics after the soft crash: a fifth of the speed when off the track. */
  function AfterSoftCrash(st: CarState, offTrack: bool): (r: CarState)
    ensures r.x == st.x && r.y == st.y && r.heading == st.heading
    ensures offTrack ==> r.speed == st.speed * SOFT_CRASH_FACTOR
    ensures !offTrack ==> r == st
  {
    if offTrack then st.(speed := st.speed * SOFT_CRASH_FACTOR) else st
  }

  /** The reward strategy's objects are reward objects: never the car, the track or the env. */
  lemma RewardObjectsAreSeparate(fn: RewardFn, d: CarDynamics, t: Track, e: CarEnv)
    ensures d !in Objects(fn) && t !in Objects(fn) && e !in Objects(fn)
  {
  }

  /** The car after `dynamics.step(action[0], action[1], friction_override)`. */
  function PostDynamics(st: CarState, action: seq<real>, config: StepConfig, friction: real, m: Math): CarState
    requires |action| >= 2
  {
    NextState(st, action[0], action[1], DT, config.friction.GetOr(friction), m)
  }

  class CarEnv {
    const dynamics: CarDynamics
    const track: Track
    const rewardFn: RewardFn
    const rewardDelaySteps: int
    const maxSteps: nat
    var rewardBuffer: seq<real>
    var currentStep: nat

    ghost predicate Valid()
      reads this, dynamics, track, if rewardFn.ProgressFn? then {rewardFn.progress.track} else {}
    {
      track.Valid() && Ready(rewardFn) && dynamics.dt == DT && maxSteps == MAX_STEPS
    }

    /**
     * `CarEnv(reward_type, track_type, reward_fn, friction_scale, reward_delay_steps)` for a
     * layout name that parsed: a supplied strategy wins; otherwise "broken" selects the
     * speed-only strategy and anything else the progress strategy on this env's track.
     */
    constructor (rewardType: string, layout: Layout, suppliedFn: Option<RewardFn>, frictionScale: real,
                 rewardDelaySteps: int, fixed: FixedCenterlines, draw: AnchorDraw, m: Math)
      requires WellFormedFixed(fixed) && WellFormedDraw(draw)
      requires suppliedFn.Some? ==> Ready(suppliedFn.value)
      ensures Valid() && fresh(dynamics) && fresh(track)
      ensures track.trackType == layout && dynamics.friction == frictionScale
      ensures dynamics.State() == CarState(0.0, 0.0, 0.0, 0.0)
      ensures this.rewardDelaySteps == rewardDelaySteps && rewardBuffer == [] && currentStep == 0
      ensures suppliedFn.Some? ==> rewardFn == suppliedFn.value
      ensures suppliedFn.None? && rewardType == "broken" ==> rewardFn == BrokenFn
      ensures suppliedFn.None? && rewardType != "broken" ==>
        rewardFn.ProgressFn? && rewardFn.progress.track == track && fresh(rewardFn.progress)
        && rewardFn.progress.lastProgress == 0.0
    {
      var d := new CarDynamics(DT, frictionScale);
      var t := new Track(layout, fixed, draw, m);
      var fn: RewardFn;
      if suppliedFn.Some? {
        fn := suppliedFn.value;
      } else if rewardType == "broken" {
        fn := BrokenFn;
      } else {
        var p := new ProgressReward(t);
        fn := ProgressFn(p);
      }
      dynamics := d;
      track := t;
      rewardFn := fn;
      this.rewardDelaySteps := rewardDelaySteps;
      rewardBuffer := [];
      maxSteps := MAX_STEPS;
      currentStep := 0;
    }

    /** `_get_obs` on the current car state. */
    function Observation(m: Math): seq<real>
      reads this, track, dynamics
      requires track.Valid()
    {
      Observe(track.centerline, dynamics.State(), m)
    }

    /** `reset(options)`: a given start pose or the track's, a fresh strategy, step 0, N zeros buffered. */
    method Reset(startPose: Option<(real, real, real)>, m: Math) returns (obs: seq<real>, info: Info)
      requires Valid()
      modifies this, dynamics, Objects(rewardFn)
      ensures Valid()
      ensures var pose := startPose.GetOr(StartPose(track.centerline));
              dynamics.State() == CarState(pose.0, pose.1, pose.2, 0.0)
      ensures currentStep == 0 && rewardBuffer == Zeros(if rewardDelaySteps > 0 then rewardDelaySteps else 0)
      ensures Abstract(rewardFn) == ResetStrategy(old(Abstract(rewardFn)))
      ensures obs == Observation(m) && info == EmptyInfo
    {
      var pose := if startPose.Some? then startPose.value else StartPose(track.centerline);
      ResetState(pose);
      obs := Observation(m);
      info := EmptyInfo;
    }

    /** Everything `reset` changes, before the observation is taken. */
    method ResetState(pose: (real, real, real))
      requires Valid()
      modifies this, dynamics, Objects(rewardFn)
      ensures Valid() && unchanged(track)
      ensures dynamics.State() == CarState(pose.0, pose.1, pose.2, 0.0)
      ensures currentStep == 0 && rewardBuffer == Zeros(if rewardDelaySteps > 0 then rewardDelaySteps else 0)
      ensures Abstract(rewardFn) == ResetStrategy(old(Abstract(rewardFn)))
    {
      RewardObjectsAreSeparate(rewardFn, dynamics, track, this);
      if rewardFn.ProgressFn? {
        RewardObjectsAreSeparate(rewardFn, dynamics, rewardFn.progress.track, this);
      }
      ghost var before := Abstract(rewardFn);
      var _ := dynamics.Reset(pose.0, pose.1, pose.2);
      assert Abstract(rewardFn) == before;
      ResetReward(rewardFn);
      currentStep := 0;
      rewardBuffer := Zeros(if rewardDelaySteps > 0 then rewardDelaySteps else 0);
    }

    /**
     * `regenerate_track`: a new layout for the procedural track, then a reset to its
     * start. The reset's observation and info are discarded; nothing is returned.
     */
    method RegenerateTrack(draw: AnchorDraw, m: Math)
      requires Valid() && WellFormedDraw(draw)
      modifies this, dynamics, track, Objects(rewardFn)
      ensures Valid()
      ensures track.trackType == RandomLayout ==> track.centerline == RandomCenterline(draw, m)
      ensures track.trackType != RandomLayout ==> track.centerline == old(track.centerline)
      ensures var pose := StartPose(track.centerline);
              dynamics.State() == CarState(pose.0, pose.1, pose.2, 0.0)
      ensures currentStep == 0 && rewardBuffer == Zeros(if rewardDelaySteps > 0 then rewardDelaySteps else 0)
      ensures Abstract(rewardFn) == ResetStrategy(old(Abstract(rewardFn)))
    {
      RewardObjectsAreSeparate(rewardFn, dynamics, track, this);
      ghost var before := Abstract(rewardFn);
      track.Regenerate(draw, m);
      assert Abstract(rewardFn) == before;
      assert Ready(rewardFn) by {
        if rewardFn.ProgressFn? && rewardFn.progress.track == track {
          assert track.Valid();
        }
      }
      var _, _ := Reset(None, m);
    }

    /** `step(action, config)`. */
    method Step(action: seq<real>, config: StepConfig, m: Math) returns (result: StepResult)
      requires Valid() && Lawful(m) && |action| >= 2 && ConfigFits(config)
      modifies this, dynamics, Objects(rewardFn)
      ensures Valid()
      ensures currentStep == old(currentStep) + 1
      ensures var st := PostDynamics(old(dynamics.State()), action, config, dynamics.friction, m);
              && |result.obs| == OBS_SIZE
              && result.obs == Corrupt(Observe(track.centerline, st, m), config)
              && result.info == StepInfo(track.centerline, track.trackWidth, st, result.obs, m)
              && !result.terminated && result.truncated == (currentStep >= maxSteps)
              && dynamics.State() == AfterSoftCrash(st, result.info.offTrack.value)
              && (result.reward, rewardBuffer)
                 == EnvDelay(rewardDelaySteps, old(rewardBuffer),
                             RewardValue(old(Abstract(rewardFn)), TrackOf(rewardFn), st,
                                         Action(action[0], action[1]), result.info, m))
      ensures Abstract(rewardFn) == Advance(old(Abstract(rewardFn)), Action(action[0], action[1]), result.info)
    {
      RewardObjectsAreSeparate(rewardFn, dynamics, track, this);
      if rewardFn.ProgressFn? {
        RewardObjectsAreSeparate(rewardFn, dynamics, rewardFn.progress.track, this);
      }
      ghost var before := Abstract(rewardFn);
      ghost var buffer := rewardBuffer;
      ghost var st := PostDynamics(dynamics.State(), action, config, dynamics.friction, m);
      ghost var cl := TrackOf(rewardFn);
      assert before.Progress? ==> |cl| > 0;
      currentStep := currentStep + 1;
      assert Abstract(rewardFn) == before;
      var steering := action[0];
      var throttle := action[1];
      var act := Action(steering, throttle);
      var s := dynamics.Step(steering, throttle, config.friction, m);
      assert s == st;
      assert Abstract(rewardFn) == before && rewardBuffer == buffer && TrackOf(rewardFn) == cl;
      var obs, info := Sense(config, m);
      result := Respond(s, act, obs, info, m);
      assert TrackOf(rewardFn) == cl;
      assert (result.reward, rewardBuffer) == EnvDelay(rewardDelaySteps, buffer, RewardValue(before, cl, s, act, info, m));
      assert Abstract(rewardFn) == Advance(before, act, info);
    }

    /**
     * The sensing part of `step`: `_get_obs` on the moved car, the configured noise and mask,
     * and the info dictionary built from the car state and the corrupted readings.
     */
    method Sense(config: StepConfig, m: Math) returns (obs: seq<real>, info: Info)
      requires track.Valid() && ConfigFits(config)
      ensures obs == Corrupt(Observation(m), config)
      ensures info == StepInfo(track.centerline, track.trackWidth, dynamics.State(), obs, m)
      ensures Abstract(rewardFn) == old(Abstract(rewardFn)) && TrackOf(rewardFn) == old(TrackOf(rewardFn))
    {
      ghost var memory := Abstract(rewardFn);
      ghost var cl := TrackOf(rewardFn);
      var st := dynamics.State();
      var offTrack := IsOffTrack(track.centerline, track.trackWidth, st.x, st.y, m);
      var progress := TrackProgress(track.centerline, st.x, st.y, m);
      obs := Observation(m);
      if config.noise.Some? {
        obs := AddNoise(obs, config.noise.value);
      }
      if config.mask.Some? {
        obs := ZeroMasked(obs, config.mask.value);
        assert Abstract(rewardFn) == memory && TrackOf(rewardFn) == cl;
      }
      info := Info(Some(st.x), Some(st.y), Some(st.heading), Some(st.speed), Some(offTrack),
                   Some(obs[0]), Some(obs[1]), Some(progress), None, None, None, None);
    }

    /**
     * The rest of `step` once the car has moved and been sensed: reward, delay, soft crash and
     * the truncation flag.
     */
    method Respond(s: CarState, act: Action, obs: seq<real>, info: Info, m: Math) returns (result: StepResult)
      requires Valid() && Lawful(m) && info.offTrack.Some?
      modifies this, dynamics, Objects(rewardFn)
      ensures Valid()
      ensures currentStep == old(currentStep)
      ensures result.obs == obs && result.info == info
      ensures !result.terminated && result.truncated == (currentStep >= maxSteps)
      ensures (result.reward, rewardBuffer)
              == EnvDelay(rewardDelaySteps, old(rewardBuffer),
                          RewardValue(old(Abstract(rewardFn)), TrackOf(rewardFn), s, act, info, m))
      ensures Abstract(rewardFn) == Advance(old(Abstract(rewardFn)), act, info)
      ensures dynamics.State() == AfterSoftCrash(old(dynamics.State()), info.offTrack.value)
      ensures track.centerline == old(track.centerline) && TrackOf(rewardFn) == old(TrackOf(rewardFn))
    {
      RewardObjectsAreSeparate(rewardFn, dynamics, track, this);
      if rewardFn.ProgressFn? {
        RewardObjectsAreSeparate(rewardFn, dynamics, rewardFn.progress.track, this);
      }
      var reward := RewardStep(s, act, info, m);
      ghost var after := Abstract(rewardFn);
      SoftCrash(info.offTrack.value);
      assert Abstract(rewardFn) == after;
      result := StepResult(obs, reward, false, currentStep >= maxSteps, info);
    }

    /** The reward of one step: computed by the strategy, then passed through the delay buffer. */
    method RewardStep(s: CarState, act: Action, info: Info, m: Math) returns (reward: real)
      requires Valid() && Lawful(m)
      modifies this, Objects(rewardFn)
      ensures Valid()
      ensures currentStep == old(currentStep)
      ensures (reward, rewardBuffer)
              == EnvDelay(rewardDelaySteps, old(rewardBuffer),
                          RewardValue(old(Abstract(rewardFn)), TrackOf(rewardFn), s, act, info, m))
      ensures Abstract(rewardFn) == Advance(old(Abstract(rewardFn)), act, info)
    {
      RewardObjectsAreSeparate(rewardFn, dynamics, track, this);
      if rewardFn.ProgressFn? {
        RewardObjectsAreSeparate(rewardFn, dynamics, rewardFn.progress.track, this);
      }
      var raw := ComputeReward(rewardFn, s, act, info, m);
      ghost var after := Abstract(rewardFn);
      reward := DelayReward(raw);
      assert Abstract(rewardFn) == after;
    }

    /** `if off_track: self.dynamics.speed *= 0.2`. */
    method SoftCrash(offTrack: bool)
      modifies dynamics
      ensures dynamics.State() == AfterSoftCrash(old(dynamics.State()), offTrack)
    {
      if offTrack {
        dynamics.speed := dynamics.speed * SOFT_CRASH_FACTOR;
      }
    }

    /** The reward delay: with N > 0 buffer the raw reward and report the one from N steps ago. */
    method DelayReward(raw: real) returns (reward: real)
      modifies this
      ensures (reward, rewardBuffer) == EnvDelay(rewardDelaySteps, old(rewardBuffer), raw)
      ensures currentStep == old(currentStep)
    {
      if rewardDelaySteps > 0 {
        rewardBuffer := rewardBuffer + [raw];
        if |rewardBuffer| > rewardDelaySteps {
          reward := rewardBuffer[0];
          rewardBuffer := rewardBuffer[1..];
        } else {
          reward := 0.0;
        }
      } else {
        reward := raw;
      }
    }
  }

  /** Building an environment by layout name: an unknown name fails before anything is built. */
  method CreateEnv(rewardType: string, trackType: string, suppliedFn: Option<RewardFn>, frictionScale: real,
                   rewardDelaySteps: int, fixed: FixedCenterlines, draw: AnchorDraw, m: Math)
    returns (r: Result<CarEnv, string>)
    requires WellFormedFixed(fixed) && WellFormedDraw(draw)
    requires suppliedFn.Some? ==> Ready(suppliedFn.value)
    ensures r.Success? <==> ParseLayout(trackType).Success?
    ensures r.Success? ==> fresh(r.value) && r.value.Valid() && r.value.track.trackType == ParseLayout(trackType).value
    ensures r.Failure? ==> r.error == ParseLayout(trackType).error
  {
    var layout := ParseLayout(trackType);
    if layout.Failure? {
      return Failure(layout.error);
    }
    var env := new CarEnv(rewardType, layout.value, suppliedFn, frictionScale, rewardDelaySteps, fixed, draw, m);
    return Success(env);
  }
}
