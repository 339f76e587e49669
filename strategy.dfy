/**
 * The two-method reward interface (`compute(env_state, action, info)` and `reset()`) as
 * a tagged handle over every strategy, together with a pure model of a strategy's
 * memory that states what each call does to it.
 */
module RewardStrategy {
  import opened Basics
  import opened Numerics
  import opened TrackGeometry
  import opened VehicleDynamics
  import opened RewardDefinitions
  import opened ControlRewards
  import opened Segment4Rewards
  import opened CheatingRewards
  import opened MasteryRewards
  import opened SurvivalRewards
  import opened DrivingRewards
  import opened ESFriendlyRewards

  /** A reward object as the environment holds it. */
  datatype RewardFn =
    | ProgressFn(progress: ProgressReward)
    | BrokenFn
    | ControlFn(control: ControlReward)
    | ExploitableFn(exploitable: ExploitableReward)
    | MisalignedFn
    | PenaltySensitivityFn(latPenalty: real, headingPenalty: real)
    | SpeedDemonFn
    | ParkerFn
    | SafetySensitivityFn(safetyCoeff: real)
    | MasteryFn(mastery: MasteryReward)
    | SurvivalFn(survival: SurvivalReward)
    | DrivingFn
    | ESFriendlyFn(esFriendly: ESFriendlyReward)

  /** What a strategy remembers between calls, with its fixed parameters. */
  datatype Strategy =
    | Progress(lastProgress: real)
    | Broken
    | Control(prevProgress: real, prevSteering: real)
    | Exploitable(prevProgress: real, prevSteering: real)
    | Misaligned
    | PenaltySensitivity(latPenalty: real, headingPenalty: real)
    | SpeedDemon
    | Parker
    | SafetySensitivity(safetyCoeff: real)
    | Mastery(prevProgress: real)
    | Survival(prevProgress: real, laps: nat)
    | Driving
    | ESFriendly(prevProgress: real)

  /** The strategies that keep no memory. */
  predicate Stateless(s: Strategy)
  {
    s.Broken? || s.Misaligned? || s.PenaltySensitivity? || s.SpeedDemon? || s.Parker?
    || s.SafetySensitivity? || s.Driving?
  }

  /** `compute`'s return value for a strategy in memory state `s`. */
  function RewardValue(s: Strategy, cl: seq<Point>, env: CarState, action: Action, info: Info, m: Math): real
    requires Lawful(m) && (s.Progress? ==> |cl| > 0)
  {
    match s
    case Progress(_) => ProgressValue(cl, env, action, info, m)
    case Broken => BrokenValue(env, action, info)
    case Control(pp, ps) => ControlValue(pp, ps, action, info)
    case Exploitable(pp, ps) => ControlValue(pp, ps, action, info) + ExploitBonus(action, info)
    case Misaligned => MisalignedValue(info)
    case PenaltySensitivity(lat, head) => SensitivityValue(lat, head, info)
    case SpeedDemon => SpeedDemonValue(env, action, info)
    case Parker => ParkerValue(info, m)
    case SafetySensitivity(c) => SafetySensitivityValue(c, info)
    case Mastery(pp) => MasteryValue(pp, env, info)
    case Survival(pp, _) => SurvivalValue(pp, env, info)
    case Driving => DrivingValue(env, info)
    case ESFriendly(pp) => ESFriendlyValue(pp, env, info)
  }

  /** The memory after `compute`. */
  function Advance(s: Strategy, action: Action, info: Info): (r: Strategy)
    ensures Stateless(s) ==> r == s
  {
    match s
    case Control(_, _) => Control(info.progress.GetOr(0.0), action.steering)
    case Exploitable(_, _) => Exploitable(info.progress.GetOr(0.0), action.steering)
    case Mastery(_) => Mastery(info.progress.GetOr(0.0))
    case Survival(pp, laps) => Survival(info.progress.GetOr(0.0), NextLaps(laps, pp, info))
    case ESFriendly(_) => ESFriendly(info.progress.GetOr(0.0))
    case _ => s
  }

  /** The memory after `reset`. */
  function ResetStrategy(s: Strategy): (r: Strategy)
    ensures Stateless(s) ==> r == s
  {
    match s
    case Progress(_) => Progress(0.0)
    case Control(_, _) => Control(0.0, 0.0)
    case Exploitable(_, _) => Exploitable(0.0, 0.0)
    case Mastery(_) => Mastery(0.0)
    case Survival(_, _) => Survival(0.0, 0)
    case ESFriendly(_) => ESFriendly(0.0)
    case _ => s
  }

  /** The same strategy, whatever its memory. */
  predicate SameKind(a: Strategy, b: Strategy)
  {
    match a
    case Progress(_) => b.Progress?
    case Broken => b.Broken?
    case Control(_, _) => b.Control?
    case Exploitable(_, _) => b.Exploitable?
    case Misaligned => b.Misaligned?
    case PenaltySensitivity(lat, head) => b == a
    case SpeedDemon => b.SpeedDemon?
    case Parker => b.Parker?
    case SafetySensitivity(c) => b == a
    case Mastery(_) => b.Mastery?
    case Survival(_, _) => b.Survival?
    case Driving => b.Driving?
    case ESFriendly(_) => b.ESFriendly?
  }

  /**
   * Neither call changes which strategy is in use or its parameters; `reset` forgets
   * everything `compute` remembered, so reset after any history is the same state.
   */
  lemma InterfaceLaws(s: Strategy, action: Action, info: Info)
    ensures SameKind(s, Advance(s, action, info)) && SameKind(s, ResetStrategy(s))
    ensures ResetStrategy(Advance(s, action, info)) == ResetStrategy(s)
    ensures ResetStrategy(ResetStrategy(s)) == ResetStrategy(s)
  {
  }

  /** Progress and control strategies remember this call's progress for the next one. */
  lemma AdvanceRemembersProgress(s: Strategy, action: Action, info: Info)
    requires s.Control? || s.Exploitable? || s.Mastery? || s.Survival? || s.ESFriendly?
    ensures Advance(s, action, info).prevProgress == info.progress.GetOr(0.0)
  {
  }

  /** The objects a call may change. */
  function Objects(fn: RewardFn): set<object>
  {
    match fn
    case ProgressFn(p) => {p}
    case ControlFn(c) => {c}
    case ExploitableFn(e) => {e.control}
    case MasteryFn(mr) => {mr}
    case SurvivalFn(sr) => {sr}
    case ESFriendlyFn(f) => {f}
    case _ => {}
  }

  /** The handle's memory as a pure value. */
  function Abstract(fn: RewardFn): Strategy
    reads Objects(fn)
  {
    match fn
    case ProgressFn(p) => Progress(p.lastProgress)
    case BrokenFn => Broken
    case ControlFn(c) => Control(c.prevProgress, c.prevSteering)
    case ExploitableFn(e) => Exploitable(e.control.prevProgress, e.control.prevSteering)
    case MisalignedFn => Misaligned
    case PenaltySensitivityFn(lat, head) => PenaltySensitivity(lat, head)
    case SpeedDemonFn => SpeedDemon
    case ParkerFn => Parker
    case SafetySensitivityFn(c) => SafetySensitivity(c)
    case MasteryFn(mr) => Mastery(mr.prevProgress)
    case SurvivalFn(sr) => Survival(sr.prevProgress, sr.lapsCompleted)
    case DrivingFn => Driving
    case ESFriendlyFn(f) => ESFriendly(f.prevProgress)
  }

  /** The centreline the progress strategy projects onto (unused by the others). */
  function TrackOf(fn: RewardFn): seq<Point>
    reads if fn.ProgressFn? then {fn.progress.track} else {}
  {
    if fn.ProgressFn? then fn.progress.track.centerline else []
  }

  ghost predicate Ready(fn: RewardFn)
    reads if fn.ProgressFn? then {fn.progress.track} else {}
  {
    fn.ProgressFn? ==> fn.progress.track.Valid()
  }

  /** `reward_fn.compute(env_state, action, info)`. */
  method ComputeReward(fn: RewardFn, env: CarState, action: Action, info: Info, m: Math) returns (r: real)
    requires Lawful(m) && Ready(fn)
    modifies Objects(fn)
    ensures r == RewardValue(old(Abstract(fn)), TrackOf(fn), env, action, info, m)
    ensures Abstract(fn) == Advance(old(Abstract(fn)), action, info)
  {
    match fn
    case ProgressFn(p) => r := ProgressValue(p.track.centerline, env, action, info, m);
    case BrokenFn => r := BrokenValue(env, action, info);
    case ControlFn(c) => r := c.Compute(action, info);
    case ExploitableFn(e) => r := e.Compute(action, info);
    case MisalignedFn => r := MisalignedValue(info);
    case PenaltySensitivityFn(lat, head) => r := SensitivityValue(lat, head, info);
    case SpeedDemonFn => r := SpeedDemonValue(env, action, info);
    case ParkerFn => r := ParkerValue(info, m);
    case SafetySensitivityFn(c) => r := SafetySensitivityValue(c, info);
    case MasteryFn(mr) => r := mr.Compute(env, action, info);
    case SurvivalFn(sr) => r := sr.Compute(env, action, info);
    case DrivingFn => r := DrivingValue(env, info);
    case ESFriendlyFn(f) => r := f.Compute(env, action, info);
  }

  /** `reward_fn.reset()`. */
  method ResetReward(fn: RewardFn)
    modifies Objects(fn)
    ensures Abstract(fn) == ResetStrategy(old(Abstract(fn)))
  {
    match fn
    case ProgressFn(p) => p.Reset();
    case ControlFn(c) => c.Reset();
    case ExploitableFn(e) => e.Reset();
    case MasteryFn(mr) => mr.Reset();
    case SurvivalFn(sr) => sr.Reset();
    case ESFriendlyFn(f) => f.Reset();
    case _ =>
  }
}
