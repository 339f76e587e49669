/**
 * The evolution-strategies agent: a three-layer tanh network kept as six weight blocks
 * (W1, b1, W2, b2, W3, b3), a running observation normaliser, the action mapping with a
 * throttle floor, perturbed clones for rollouts, the fitness-weighted update, and the
 * checkpoint record. Weight matrices are stored flat in row-major order, as NumPy's
 * `flatten` and `reshape` lay them out. Random draws are parameters.
 */
module EvolutionStrategies {
  import opened Basics
  import opened Numerics

  /** `np.random.randn(*shape) * 0.1` at construction. */
  const INIT_SCALE: real := 0.1
  /** Stored by the agent but unused: `predict` does no smoothing. */
  const SMOOTHING_FACTOR: real := 0.7
  /** The normaliser's step size stops shrinking after this many observations. */
  const STAT_WINDOW: nat := 1000
  const STD_FLOOR: real := 0.01
  const THROTTLE_FLOOR: real := 0.3
  /** `update` divides by `std + 1e-8`. */
  const UPDATE_EPSILON: real := 0.00000001
  /** The training scripts' flat update is skipped unless the rewards' std exceeds 1e-6. */
  const SKIP_STD: real := 0.000001

  // ---------------------------------------------------------------------------------------
  // Layer layout and the flat weight vector
  // ---------------------------------------------------------------------------------------

  /** Element counts of the six blocks for `(in, h)`, `(h,)`, `(h, h)`, `(h,)`, `(h, out)`, `(out,)`. */
  function LayerSizes(input: nat, hidden: nat, output: nat): (r: seq<nat>)
    ensures |r| == 6
  {
    [input * hidden, hidden, hidden * hidden, hidden, hidden * output, output]
  }

  /** The sum of a sequence of counts, added up from the front. */
  function Total(s: seq<nat>): nat
  {
    if |s| == 0 then 0 else Total(s[..|s| - 1]) + s[|s| - 1]
  }

  /** `param_count`: the six block sizes added up. */
  lemma ParamCountFormula(input: nat, hidden: nat, output: nat)
    ensures Total(LayerSizes(input, hidden, output))
         == input * hidden + hidden + hidden * hidden + hidden + hidden * output + output
  {
    var s := LayerSizes(input, hidden, output);
    assert Total(s[..1]) == input * hidden by { assert s[..1][..0] == []; }
    assert Total(s[..2]) == input * hidden + hidden by { assert s[..2][..1] == s[..1]; }
    assert Total(s[..3]) == input * hidden + hidden + hidden * hidden by { assert s[..3][..2] == s[..2]; }
    assert Total(s[..4]) == input * hidden + hidden + hidden * hidden + hidden by { assert s[..4][..3] == s[..3]; }
    assert Total(s[..5]) == input * hidden + hidden + hidden * hidden + hidden + hidden * output by {
      assert s[..5][..4] == s[..4];
    }
    assert s[..6] == s;
    assert s[..6][..5] == s[..5];
  }

  /** A prefix of the blocks never holds more than all of them. */
  lemma {:induction false} TotalPrefix(s: seq<nat>, k: nat)
    requires k <= |s|
    ensures Total(s[..k]) <= Total(s)
    decreases |s|
  {
    if k < |s| {
      assert s[..|s| - 1][..k] == s[..k];
      TotalPrefix(s[..|s| - 1], k);
    } else {
      assert s[..k] == s;
    }
  }

  /** Every block has the element count its shape gives. */
  predicate Shaped(ws: seq<seq<real>>, sizes: seq<nat>)
  {
    |ws| == |sizes| && forall l :: 0 <= l < |ws| ==> |ws[l]| == sizes[l]
  }

  /** `np.concatenate([w.flatten() for w in weights])`. */
  function Flatten(ws: seq<seq<real>>): seq<real>
  {
    if |ws| == 0 then [] else Flatten(ws[..|ws| - 1]) + ws[|ws| - 1]
  }

  /** The blocks' slices of a long enough flat vector, in order; the rest of it is ignored. */
  function Unflatten(sizes: seq<nat>, flat: seq<real>): (r: seq<seq<real>>)
    requires Total(sizes) <= |flat|
    ensures Shaped(r, sizes)
  {
    if |sizes| == 0 then []
    else
      var n := |sizes| - 1;
      Unflatten(sizes[..n], flat) + [flat[Total(sizes[..n])..Total(sizes)]]
  }

  /** The flat vector of well-shaped blocks holds exactly `param_count` numbers. */
  lemma {:induction false} FlattenLength(ws: seq<seq<real>>, sizes: seq<nat>)
    requires Shaped(ws, sizes)
    ensures |Flatten(ws)| == Total(sizes)
    decreases |ws|
  {
    if |ws| > 0 {
      var n := |ws| - 1;
      assert Shaped(ws[..n], sizes[..n]);
      FlattenLength(ws[..n], sizes[..n]);
    }
  }

  /** Extra numbers after the last block do not change how the blocks are cut. */
  lemma {:induction false} UnflattenIgnoresTail(sizes: seq<nat>, flat: seq<real>, more: seq<real>)
    requires Total(sizes) <= |flat|
    ensures Unflatten(sizes, flat + more) == Unflatten(sizes, flat)
    decreases |sizes|
  {
    if |sizes| > 0 {
      var n := |sizes| - 1;
      UnflattenIgnoresTail(sizes[..n], flat, more);
      assert (flat + more)[Total(sizes[..n])..Total(sizes)] == flat[Total(sizes[..n])..Total(sizes)];
    }
  }

  /** `set_flat_weights(get_flat_weights())` gives back the same blocks. */
  lemma {:induction false} UnflattenFlatten(ws: seq<seq<real>>, sizes: seq<nat>)
    requires Shaped(ws, sizes)
    ensures |Flatten(ws)| == Total(sizes)
    ensures Unflatten(sizes, Flatten(ws)) == ws
    decreases |ws|
  {
    FlattenLength(ws, sizes);
    if |ws| > 0 {
      var n := |ws| - 1;
      assert Shaped(ws[..n], sizes[..n]);
      UnflattenFlatten(ws[..n], sizes[..n]);
      var front := Flatten(ws[..n]);
      var flat := Flatten(ws);
      assert flat == front + ws[n];
      var a := Total(sizes[..n]);
      assert Total(sizes) == a + |ws[n]|;
      UnflattenIgnoresTail(sizes[..n], front, ws[n]);
      assert Unflatten(sizes[..n], flat) == ws[..n];
      SliceAfter(front, ws[n]);
      assert flat[a..Total(sizes)] == ws[n];
      assert Unflatten(sizes, flat) == ws[..n] + [ws[n]];
      assert ws == ws[..n] + [ws[n]];
    }
  }

  /** The part of `front + w` after `front` is `w`. */
  lemma SliceAfter(front: seq<real>, w: seq<real>)
    ensures (front + w)[|front|..|front| + |w|] == w
  {
  }

  /** `get_flat_weights()` after `set_flat_weights(v)` gives back the first `param_count` numbers of v. */
  lemma {:induction false} FlattenUnflatten(sizes: seq<nat>, flat: seq<real>)
    requires Total(sizes) <= |flat|
    ensures Flatten(Unflatten(sizes, flat)) == flat[..Total(sizes)]
    decreases |sizes|
  {
    if |sizes| > 0 {
      var n := |sizes| - 1;
      var front := Unflatten(sizes[..n], flat);
      var u := Unflatten(sizes, flat);
      assert u[..|u| - 1] == front;
      FlattenUnflatten(sizes[..n], flat);
      assert flat[..Total(sizes[..n])] + flat[Total(sizes[..n])..Total(sizes)] == flat[..Total(sizes)];
    }
  }

  // ---------------------------------------------------------------------------------------
  // Layer-wise arithmetic
  // ---------------------------------------------------------------------------------------

  /** Two lists of blocks with the same block lengths. */
  predicate SameShape(a: seq<seq<real>>, b: seq<seq<real>>)
  {
    |a| == |b| && forall l :: 0 <= l < |a| ==> |a[l]| == |b[l]|
  }

  /** Block by block `w + c * n`. */
  function AddLayers(ws: seq<seq<real>>, c: real, ns: seq<seq<real>>): (r: seq<seq<real>>)
    requires SameShape(ws, ns)
    ensures |r| == |ws| && forall l :: 0 <= l < |ws| ==> r[l] == AddScaled(ws[l], c, ns[l])
  {
    seq(|ws|, l requires 0 <= l < |ws| => AddScaled(ws[l], c, ns[l]))
  }

  /** `[np.zeros_like(w) for w in weights]`. */
  function ZeroLayers(sizes: seq<nat>): (r: seq<seq<real>>)
    ensures Shaped(r, sizes)
  {
    seq(|sizes|, l requires 0 <= l < |sizes| => Zeros(sizes[l]))
  }

  /** Block by block `c * w`. */
  function ScaleLayers(c: real, ws: seq<seq<real>>): (r: seq<seq<real>>)
    ensures SameShape(r, ws)
    ensures forall l, e :: 0 <= l < |ws| && 0 <= e < |ws[l]| ==> r[l][e] == c * ws[l][e]
  {
    seq(|ws|, l requires 0 <= l < |ws| => seq(|ws[l]|, e requires 0 <= e < |ws[l]| => c * ws[l][e]))
  }

  /** Adding zero blocks leaves the weights as they are. */
  lemma AddZeroLayers(ws: seq<seq<real>>, c: real, sizes: seq<nat>)
    requires Shaped(ws, sizes)
    ensures AddLayers(ws, c, ZeroLayers(sizes)) == ws
  {
    forall l | 0 <= l < |ws|
      ensures AddScaled(ws[l], c, ZeroLayers(sizes)[l]) == ws[l]
    {
      AddScaledZero(ws[l], c, ZeroLayers(sizes)[l]);
    }
  }

  // ---------------------------------------------------------------------------------------
  // The observation normaliser
  // ---------------------------------------------------------------------------------------

  /** `1.0 / min(obs_count, 1000)` once the count has been incremented. */
  function StatStep(count: nat): (a: real)
    requires count >= 1
    ensures 1.0 / STAT_WINDOW as real <= a <= 1.0
    ensures count >= STAT_WINDOW ==> a == 1.0 / STAT_WINDOW as real
    ensures count <= STAT_WINDOW ==> a * count as real == 1.0
  {
    var window := if count < STAT_WINDOW then count else STAT_WINDOW;
    assert 1 <= window <= STAT_WINDOW;
    DivMonotone(window as real, STAT_WINDOW as real);
    1.0 / window as real
  }

  /** Dividing one by a larger positive number gives a smaller result. */
  lemma DivMonotone(a: real, b: real)
    requires 1.0 <= a <= b
    ensures 1.0 / b <= 1.0 / a <= 1.0
  {
    assert a * b >= 1.0;
    assert 1.0 / a - 1.0 / b == (b - a) / (a * b);
    assert 1.0 - 1.0 / a == (a - 1.0) / a;
  }

  /** `(1 - alpha) * mean + alpha * obs`. */
  function NextMean(mean: seq<real>, obs: seq<real>, a: real): (r: seq<real>)
    requires |mean| == |obs|
    ensures |r| == |obs|
    ensures a == 1.0 ==> r == obs
    ensures forall i :: 0 <= i < |obs| && 0.0 <= a <= 1.0 ==> Min(mean[i], obs[i]) <= r[i] <= Max(mean[i], obs[i])
  {
    seq(|obs|, i requires 0 <= i < |obs| => Blend(mean[i], obs[i], a))
  }

  /**
   * `np.maximum((1 - alpha) * std + alpha * |obs - new_mean|, 0.01)`: a running mean
   * absolute deviation around the updated mean, never below the floor.
   */
  function NextStd(std: seq<real>, obs: seq<real>, mean: seq<real>, a: real): (r: seq<real>)
    requires |std| == |obs| == |mean|
    ensures |r| == |obs|
    ensures forall i :: 0 <= i < |obs| ==> r[i] >= STD_FLOOR
    ensures forall i :: 0 <= i < |obs| ==>
              r[i] == STD_FLOOR || r[i] == (1.0 - a) * std[i] + a * Abs(obs[i] - mean[i])
    ensures forall i :: 0 <= i < |obs| && (1.0 - a) * std[i] + a * Abs(obs[i] - mean[i]) <= STD_FLOOR ==>
              r[i] == STD_FLOOR
  {
    seq(|obs|, i requires 0 <= i < |obs| => StdEntry(std[i], obs[i], mean[i], a))
  }

  /** One entry of the normaliser's deviation update. */
  function StdEntry(std: real, obs: real, mean: real, a: real): (r: real)
    ensures r >= STD_FLOOR
  {
    Max((1.0 - a) * std + a * Abs(obs - mean), STD_FLOOR)
  }

  /** `(obs - mean) / std` for a positive std. */
  function Standardised(obs: seq<real>, mean: seq<real>, std: seq<real>): (r: seq<real>)
    requires |obs| == |mean| == |std| && forall i :: 0 <= i < |std| ==> std[i] > 0.0
    ensures |r| == |obs|
    ensures forall i :: 0 <= i < |obs| ==> r[i] * std[i] == obs[i] - mean[i]
  {
    seq(|obs|, i requires 0 <= i < |obs| => (obs[i] - mean[i]) / std[i])
  }

  /** `np.ones(n)`. */
  function Ones(n: nat): (r: seq<real>)
    ensures |r| == n && forall i :: 0 <= i < n ==> r[i] == 1.0
  {
    seq(n, _ => 1.0)
  }

  /**
   * The first observation after `reset` (mean 0, std 1, count 0) becomes the mean,
   * every std entry drops to the floor, and the normalised observation is all zeros.
   */
  lemma FirstObservationAfterReset(obs: seq<real>)
    ensures StatStep(1) == 1.0
    ensures NextMean(Zeros(|obs|), obs, StatStep(1)) == obs
    ensures NextStd(Ones(|obs|), obs, obs, StatStep(1)) == seq(|obs|, _ => STD_FLOOR)
    ensures Standardised(obs, obs, seq(|obs|, _ => STD_FLOOR)) == Zeros(|obs|)
  {
    var std := NextStd(Ones(|obs|), obs, obs, 1.0);
    forall i | 0 <= i < |obs|
      ensures std[i] == STD_FLOOR
    {
      assert (1.0 - 1.0) * Ones(|obs|)[i] + 1.0 * Abs(obs[i] - obs[i]) == 0.0;
    }
  }

  // ---------------------------------------------------------------------------------------
  // The forward pass and the action mapping
  // ---------------------------------------------------------------------------------------

  /** Row-major index of entry (i, j) of a rows x cols matrix. */
  lemma MatrixIndex(i: nat, j: nat, rows: nat, cols: nat)
    requires i < rows && j < cols
    ensures i * cols + j < rows * cols
  {
    assert i * cols + j < (i + 1) * cols;
    assert (i + 1) * cols <= rows * cols by { MulMonotone(i + 1, rows, cols); }
  }

  lemma MulMonotone(a: nat, b: nat, c: nat)
    requires a <= b
    ensures a * c <= b * c
  {
  }

  /** Column j of `x @ W` over the first n rows, for W flat with `cols` columns. */
  function ColumnDot(x: seq<real>, w: seq<real>, cols: nat, j: nat, n: nat): real
    requires j < cols && n <= |x| && |w| == |x| * cols
  {
    if n == 0 then 0.0
    else
      MatrixIndex(n - 1, j, |x|, cols);
      ColumnDot(x, w, cols, j, n - 1) + x[n - 1] * w[(n - 1) * cols + j]
  }

  /** `x @ W + b`. */
  function Affine(x: seq<real>, w: seq<real>, b: seq<real>): (r: seq<real>)
    requires |w| == |x| * |b|
    ensures |r| == |b|
  {
    seq(|b|, j requires 0 <= j < |b| => ColumnDot(x, w, |b|, j, |x|) + b[j])
  }

  /** `np.tanh` element-wise. */
  function TanhAll(v: seq<real>, m: Math): (r: seq<real>)
    ensures |r| == |v|
    ensures Lawful(m) ==> forall i :: 0 <= i < |v| ==> -1.0 < r[i] < 1.0
  {
    seq(|v|, i requires 0 <= i < |v| => Tanh(v[i], m))
  }

  function Tanh(x: real, m: Math): (r: real)
    ensures Lawful(m) ==> -1.0 < r < 1.0
  {
    m.tanh(x)
  }

  /** The network output for a normalised input: three tanh layers. */
  function Forward(ws: seq<seq<real>>, x: seq<real>, input: nat, hidden: nat, output: nat, m: Math)
    : (r: seq<real>)
    requires Shaped(ws, LayerSizes(input, hidden, output)) && |x| == input
    ensures |r| == output
    ensures Lawful(m) ==> forall i :: 0 <= i < output ==> -1.0 < r[i] < 1.0
  {
    var h1 := TanhAll(Affine(x, ws[0], ws[1]), m);
    var h2 := TanhAll(Affine(h1, ws[2], ws[3]), m);
    TanhAll(Affine(h2, ws[4], ws[5]), m)
  }

  /** Steering is the first output; throttle maps the second from (-1, 1) to (0, 1), floored at 0.3. */
  function ActionOf(out: seq<real>): (r: seq<real>)
    requires |out| >= 2
    ensures |r| == 2 && r[0] == out[0] && r[1] >= THROTTLE_FLOOR
    ensures r[1] == THROTTLE_FLOOR || r[1] == (out[1] + 1.0) / 2.0
    ensures -1.0 < out[0] < 1.0 && -1.0 < out[1] < 1.0 ==>
              -1.0 < r[0] < 1.0 && THROTTLE_FLOOR <= r[1] < 1.0
  {
    [out[0], Max((out[1] + 1.0) / 2.0, THROTTLE_FLOOR)]
  }

  // ---------------------------------------------------------------------------------------
  // Fitness shaping and the update
  // ---------------------------------------------------------------------------------------

  function Sum(s: seq<real>): real
  {
    if |s| == 0 then 0.0 else Sum(s[..|s| - 1]) + s[|s| - 1]
  }

  /** `np.mean`. */
  function Mean(s: seq<real>): real
    requires |s| > 0
  {
    Sum(s) / |s| as real
  }

  /** `np.std`: the population standard deviation. */
  function PopStd(s: seq<real>, m: Math): real
    requires |s| > 0
  {
    var mu := Mean(s);
    m.sqrt(Sum(seq(|s|, j requires 0 <= j < |s| => (s[j] - mu) * (s[j] - mu))) / |s| as real)
  }

  /** `(rewards - mean) / d`. */
  function Centred(s: seq<real>, d: real): (r: seq<real>)
    requires |s| > 0 && d != 0.0
    ensures |r| == |s|
    ensures forall j :: 0 <= j < |s| ==> r[j] == (s[j] - Mean(s)) / d
  {
    seq(|s|, j requires 0 <= j < |s| => (s[j] - Mean(s)) / d)
  }

  /** If every entry of t is the matching entry of s, less c, over d, then so is the sum, less |s| times c. */
  lemma {:induction false} SumShifted(t: seq<real>, s: seq<real>, c: real, d: real)
    requires |t| == |s|
    requires forall j :: 0 <= j < |s| ==> t[j] * d == s[j] - c
    ensures Sum(t) * d == Sum(s) - |s| as real * c
    decreases |s|
  {
    if |s| > 0 {
      var n := |s| - 1;
      SumShifted(t[..n], s[..n], c, d);
      assert Sum(t) * d == Sum(t[..n]) * d + t[n] * d;
    }
  }

  /** The standardised rewards add up to zero. */
  lemma CentredSumsToZero(s: seq<real>, d: real)
    requires |s| > 0 && d != 0.0
    ensures Sum(Centred(s, d)) == 0.0
  {
    var t := Centred(s, d);
    forall j | 0 <= j < |s|
      ensures t[j] * d == s[j] - Mean(s)
    {
    }
    SumShifted(t, s, Mean(s), d);
    assert |s| as real * Mean(s) == Sum(s);
    assert Sum(t) * d == 0.0;
  }

  /** A constant sequence sums to its length times the constant. */
  lemma {:induction false} SumConstant(s: seq<real>, c: real)
    requires forall j :: 0 <= j < |s| ==> s[j] == c
    ensures Sum(s) == |s| as real * c
    decreases |s|
  {
    if |s| > 0 {
      SumConstant(s[..|s| - 1], c);
    }
  }

  /** When every rollout scores the same, every standardised reward is zero. */
  lemma EqualRewardsCentreToZero(s: seq<real>, d: real)
    requires |s| > 0 && d != 0.0
    requires forall j :: 0 <= j < |s| ==> s[j] == s[0]
    ensures forall j :: 0 <= j < |s| ==> Centred(s, d)[j] == 0.0
  {
    SumConstant(s, s[0]);
    assert Mean(s) == s[0];
  }

  /** The standard deviation is never negative, so the update's divisor is positive. */
  lemma PopStdNonNegative(s: seq<real>, m: Math)
    requires |s| > 0 && Lawful(m)
    ensures PopStd(s, m) >= 0.0
  {
    var mu := Mean(s);
    var sq := seq(|s|, j requires 0 <= j < |s| => (s[j] - mu) * (s[j] - mu));
    forall j | 0 <= j < |sq|
      ensures sq[j] >= 0.0
    {
      var d := s[j] - mu;
      assert sq[j] == d * d;
    }
    SumNonNegative(sq);
    assert Sum(sq) / |s| as real >= 0.0;
  }

  lemma {:induction false} SumNonNegative(s: seq<real>)
    requires forall j :: 0 <= j < |s| ==> s[j] >= 0.0
    ensures Sum(s) >= 0.0
    decreases |s|
  {
    if |s| > 0 {
      SumNonNegative(s[..|s| - 1]);
    }
  }

  /** Every rollout's noise has the weights' block shapes. */
  predicate AllShaped(noises: seq<seq<seq<real>>>, sizes: seq<nat>)
  {
    forall j :: 0 <= j < |noises| ==> Shaped(noises[j], sizes)
  }

  /** `grad[layer] += r_j * noise_j[layer]` over the first n rollouts. */
  function Gradient(rhat: seq<real>, noises: seq<seq<seq<real>>>, sizes: seq<nat>, n: nat): (r: seq<seq<real>>)
    requires n <= |rhat| && n <= |noises| && AllShaped(noises, sizes)
    ensures Shaped(r, sizes)
  {
    if n == 0 then ZeroLayers(sizes)
    else AddLayers(Gradient(rhat, noises, sizes, n - 1), rhat[n - 1], noises[n - 1])
  }

  /** Rollouts with zero weight contribute nothing to the gradient. */
  lemma {:induction false} GradientOfZeroWeights(rhat: seq<real>, noises: seq<seq<seq<real>>>, sizes: seq<nat>, n: nat)
    requires n <= |rhat| && n <= |noises| && AllShaped(noises, sizes)
    requires forall j :: 0 <= j < n ==> rhat[j] == 0.0
    ensures Gradient(rhat, noises, sizes, n) == ZeroLayers(sizes)
  {
    if n > 0 {
      GradientOfZeroWeights(rhat, noises, sizes, n - 1);
      var g := ZeroLayers(sizes);
      forall l | 0 <= l < |g|
        ensures AddScaled(g[l], 0.0, noises[n - 1][l]) == g[l]
      {
        AddScaledZero(g[l], 0.0, noises[n - 1][l]);
      }
    }
  }

  /** The rewards of `results`, in order. */
  function Rewards(results: seq<(seq<seq<real>>, real)>): (r: seq<real>)
    ensures |r| == |results| && forall j :: 0 <= j < |results| ==> r[j] == results[j].1
  {
    seq(|results|, j requires 0 <= j < |results| => results[j].1)
  }

  /** The noises of `results`, in order. */
  function Noises(results: seq<(seq<seq<real>>, real)>): (r: seq<seq<seq<real>>>)
    ensures |r| == |results| && forall j :: 0 <= j < |results| ==> r[j] == results[j].0
  {
    seq(|results|, j requires 0 <= j < |results| => results[j].0)
  }

  /** The standardised rewards of `update`: centred and divided by `std + 1e-8`. */
  function FitnessWeights(results: seq<(seq<seq<real>>, real)>, m: Math): (r: seq<real>)
    requires |results| > 0 && Lawful(m)
    ensures |r| == |results|
  {
    PopStdNonNegative(Rewards(results), m);
    Centred(Rewards(results), PopStd(Rewards(results), m) + UPDATE_EPSILON)
  }

  /** The weights after `update`: `w + alpha / (sigma * N) * sum_j rhat_j * noise_j`, block by block. */
  function UpdatedWeights(ws: seq<seq<real>>, sizes: seq<nat>, results: seq<(seq<seq<real>>, real)>,
                          alpha: real, sigma: real, m: Math): (r: seq<seq<real>>)
    requires Shaped(ws, sizes) && AllShaped(Noises(results), sizes)
    requires |results| > 0 && sigma != 0.0 && Lawful(m)
    ensures Shaped(r, sizes)
  {
    var g := Gradient(FitnessWeights(results, m), Noises(results), sizes, |results|);
    AddLayers(ws, alpha / (sigma * |results| as real), g)
  }

  /** The source's `for i in range(len(ws)): ws[i] += c * ns[i]`, one block at a time. */
  method AddLayersInPlace(ws: seq<seq<real>>, c: real, ns: seq<seq<real>>) returns (r: seq<seq<real>>)
    requires SameShape(ws, ns)
    ensures r == AddLayers(ws, c, ns)
  {
    r := ws;
    var i := 0;
    while i < |r|
      invariant 0 <= i <= |ws| && |r| == |ws|
      invariant forall l :: 0 <= l < i ==> r[l] == AddScaled(ws[l], c, ns[l])
      invariant forall l :: i <= l < |ws| ==> r[l] == ws[l]
    {
      r := r[i := AddScaled(r[i], c, ns[i])];
      i := i + 1;
    }
  }

  /** `update`'s gradient loop: `grad[layer_idx] += r * noise[layer_idx]` for every result in turn. */
  method AccumulateGradient(rhat: seq<real>, results: seq<(seq<seq<real>>, real)>, sizes: seq<nat>)
    returns (grad: seq<seq<real>>)
    requires |rhat| == |results| && AllShaped(Noises(results), sizes)
    ensures grad == Gradient(rhat, Noises(results), sizes, |results|)
  {
    ghost var noises := Noises(results);
    grad := ZeroLayers(sizes);
    var j := 0;
    while j < |results|
      invariant 0 <= j <= |results|
      invariant grad == Gradient(rhat, noises, sizes, j)
    {
      grad := AddLayersInPlace(grad, rhat[j], results[j].0);
      j := j + 1;
    }
  }

  /** When every rollout scores the same, `update` leaves every block as it was. */
  lemma EqualRewardsKeepWeights(ws: seq<seq<real>>, sizes: seq<nat>, results: seq<(seq<seq<real>>, real)>,
                                alpha: real, sigma: real, m: Math)
    requires Shaped(ws, sizes) && AllShaped(Noises(results), sizes)
    requires |results| > 0 && sigma != 0.0 && Lawful(m)
    requires forall j :: 0 <= j < |results| ==> results[j].1 == results[0].1
    ensures UpdatedWeights(ws, sizes, results, alpha, sigma, m) == ws
  {
    var rs := Rewards(results);
    PopStdNonNegative(rs, m);
    EqualRewardsCentreToZero(rs, PopStd(rs, m) + UPDATE_EPSILON);
    GradientOfZeroWeights(FitnessWeights(results, m), Noises(results), sizes, |results|);
    AddZeroLayers(ws, alpha / (sigma * |results| as real), sizes);
  }

  /** The fitness weights `update` uses add up to zero. */
  lemma FitnessWeightsSumToZero(results: seq<(seq<seq<real>>, real)>, m: Math)
    requires |results| > 0 && Lawful(m)
    ensures Sum(FitnessWeights(results, m)) == 0.0
  {
    PopStdNonNegative(Rewards(results), m);
    CentredSumsToZero(Rewards(results), PopStd(Rewards(results), m) + UPDATE_EPSILON);
  }

  // ---------------------------------------------------------------------------------------
  // The training scripts' flat-vector update
  // ---------------------------------------------------------------------------------------

  /** `grad += norm_rewards[i] * eps` over the first n rollouts, on flat vectors of length `len`. */
  function FlatGradient(rhat: seq<real>, noises: seq<seq<real>>, len: nat, n: nat): (r: seq<real>)
    requires n <= |rhat| && n <= |noises| && forall j :: 0 <= j < |noises| ==> |noises[j]| == len
    ensures |r| == len
  {
    if n == 0 then Zeros(len) else AddScaled(FlatGradient(rhat, noises, len, n - 1), rhat[n - 1], noises[n - 1])
  }

  /**
   * One generation of the scripts' update: skipped unless the rewards' population std
   * exceeds 1e-6, otherwise `theta + alpha * grad / (N * sigma)` with rewards divided
   * by the std itself (no epsilon).
   */
  function GenerationUpdate(theta: seq<real>, noises: seq<seq<real>>, rewards: seq<real>,
                            alpha: real, sigma: real, m: Math): (r: seq<real>)
    requires |rewards| == |noises| > 0 && sigma != 0.0
    requires forall j :: 0 <= j < |noises| ==> |noises[j]| == |theta|
    ensures |r| == |theta|
    ensures PopStd(rewards, m) <= SKIP_STD ==> r == theta
  {
    var sd := PopStd(rewards, m);
    if sd > SKIP_STD then
      var g := FlatGradient(Centred(rewards, sd), noises, |theta|, |rewards|);
      AddScaled(theta, alpha / (|rewards| as real * sigma), g)
    else theta
  }

  /** Equal rewards have zero spread, so the scripts skip the generation's update. */
  lemma GenerationUpdateSkipsEqualRewards(theta: seq<real>, noises: seq<seq<real>>, rewards: seq<real>,
                                          alpha: real, sigma: real, m: Math)
    requires |rewards| == |noises| > 0 && sigma != 0.0 && Lawful(m)
    requires forall j :: 0 <= j < |noises| ==> |noises[j]| == |theta|
    requires forall j :: 0 <= j < |rewards| ==> rewards[j] == rewards[0]
    ensures GenerationUpdate(theta, noises, rewards, alpha, sigma, m) == theta
  {
    SumConstant(rewards, rewards[0]);
    var mu := Mean(rewards);
    assert mu == rewards[0];
    var sq := seq(|rewards|, j requires 0 <= j < |rewards| => (rewards[j] - mu) * (rewards[j] - mu));
    SumConstant(sq, 0.0);
    assert Sum(sq) / |rewards| as real == 0.0;
    assert PopStd(rewards, m) == 0.0;
  }

  // ---------------------------------------------------------------------------------------
  // Checkpoints
  // ---------------------------------------------------------------------------------------

  /** What `save` and `load` carry: the weights and the normaliser statistics. */
  datatype Snapshot = Snapshot(weights: seq<seq<real>>, obsMean: seq<real>, obsStd: seq<real>, obsCount: nat)

  /**
   * A loaded payload: the dictionary `save` writes, whose statistics keys may be absent,
   * or a bare flat weight vector in the older format.
   */
  datatype Payload =
    | Record(weights: seq<real>, obsMean: Option<seq<real>>, obsStd: Option<seq<real>>, obsCount: Option<nat>)
    | Legacy(flat: seq<real>)

  /** The dictionary `save` writes. */
  function SaveRecord(s: Snapshot): Payload
  {
    Record(Flatten(s.weights), Some(s.obsMean), Some(s.obsStd), Some(s.obsCount))
  }

  /**
   * The state `load` leaves behind, or None where `set_flat_weights` raises on a vector
   * shorter than the layout (nothing has been changed at that point).
   */
  function Restore(sizes: seq<nat>, current: Snapshot, p: Payload): Option<Snapshot>
  {
    match p
    case Record(w, mean, std, count) =>
      if Total(sizes) <= |w| then
        Some(Snapshot(Unflatten(sizes, w), mean.GetOr(current.obsMean), std.GetOr(current.obsStd), count.GetOr(0)))
      else None
    case Legacy(w) =>
      if Total(sizes) <= |w| then Some(current.(weights := Unflatten(sizes, w))) else None
  }

  /** Loading what `save` wrote restores weights and statistics, whatever the agent held before. */
  lemma SaveThenLoad(sizes: seq<nat>, saved: Snapshot, current: Snapshot)
    requires Shaped(saved.weights, sizes)
    ensures Restore(sizes, current, SaveRecord(saved)) == Some(saved)
  {
    UnflattenFlatten(saved.weights, sizes);
  }

  /** An old-format payload sets only the weights; the normaliser keeps its statistics. */
  lemma LegacyLoadKeepsStatistics(sizes: seq<nat>, current: Snapshot, flat: seq<real>)
    ensures Restore(sizes, current, Legacy(flat)).Some? <==> Total(sizes) <= |flat|
    ensures Restore(sizes, current, Legacy(flat)).Some? ==>
              var s := Restore(sizes, current, Legacy(flat)).value;
              s.obsMean == current.obsMean && s.obsStd == current.obsStd && s.obsCount == current.obsCount
  {
  }

  /** A record without `obs_count` restarts the count at zero; absent mean and std are kept. */
  lemma RecordDefaults(sizes: seq<nat>, current: Snapshot, w: seq<real>)
    requires Total(sizes) <= |w|
    ensures Restore(sizes, current, Record(w, None, None, None))
         == Some(Snapshot(Unflatten(sizes, w), current.obsMean, current.obsStd, 0))
  {
  }

  // ---------------------------------------------------------------------------------------
  // The agent
  // ---------------------------------------------------------------------------------------

  class ESAgent {
    const inputDim: nat
    const outputDim: nat
    const hiddenDim: nat
    /** Element counts of the six blocks (`layer_shapes`). */
    const sizes: seq<nat>
    const paramCount: nat
    const smoothingFactor: real
    var weights: seq<seq<real>>
    var prevAction: seq<real>
    var obsMean: seq<real>
    var obsStd: seq<real>
    var obsCount: nat

    ghost predicate Valid()
      reads this
    {
      && sizes == LayerSizes(inputDim, hiddenDim, outputDim)
      && paramCount == Total(sizes)
      && Shaped(weights, sizes)
    }

    /** `draws` stands for `np.random.randn` of each block's shape. */
    constructor(inputDim: nat, outputDim: nat, hiddenDim: nat, draws: seq<seq<real>>)
      requires Shaped(draws, LayerSizes(inputDim, hiddenDim, outputDim))
      ensures Valid()
      ensures this.inputDim == inputDim && this.outputDim == outputDim && this.hiddenDim == hiddenDim
      ensures weights == ScaleLayers(INIT_SCALE, draws)
      ensures obsMean == Zeros(inputDim) && obsStd == Ones(inputDim) && obsCount == 0
      ensures prevAction == Zeros(outputDim) && smoothingFactor == SMOOTHING_FACTOR
    {
      this.inputDim := inputDim;
      this.outputDim := outputDim;
      this.hiddenDim := hiddenDim;
      sizes := LayerSizes(inputDim, hiddenDim, outputDim);
      paramCount := Total(LayerSizes(inputDim, hiddenDim, outputDim));
      smoothingFactor := SMOOTHING_FACTOR;
      weights := ScaleLayers(INIT_SCALE, draws);
      prevAction := Zeros(outputDim);
      obsMean := Zeros(inputDim);
      obsStd := Ones(inputDim);
      obsCount := 0;
    }

    /** `copy.deepcopy(src)`: an independent agent holding the same values. */
    constructor Copy(src: ESAgent)
      ensures inputDim == src.inputDim && outputDim == src.outputDim && hiddenDim == src.hiddenDim
      ensures sizes == src.sizes && paramCount == src.paramCount && smoothingFactor == src.smoothingFactor
      ensures weights == src.weights && prevAction == src.prevAction
      ensures obsMean == src.obsMean && obsStd == src.obsStd && obsCount == src.obsCount
    {
      inputDim := src.inputDim;
      outputDim := src.outputDim;
      hiddenDim := src.hiddenDim;
      sizes := src.sizes;
      paramCount := src.paramCount;
      smoothingFactor := src.smoothingFactor;
      weights := src.weights;
      prevAction := src.prevAction;
      obsMean := src.obsMean;
      obsStd := src.obsStd;
      obsCount := src.obsCount;
    }

    /** The weights and statistics `save` writes and `load` reads. */
    function State(): Snapshot
      reads this
    {
      Snapshot(weights, obsMean, obsStd, obsCount)
    }

    /** `get_flat_weights`: `param_count` numbers that cut back into the same blocks. */
    function FlatWeights(): (r: seq<real>)
      reads this
      requires Valid()
      ensures |r| == paramCount
      ensures Unflatten(sizes, r) == weights
    {
      UnflattenFlatten(weights, sizes);
      Flatten(weights)
    }

    /**
     * `set_flat_weights`: cuts the blocks off the front of `flat` in layout order. A vector
     * shorter than the layout makes `reshape` raise before `weights` is assigned.
     */
    method SetFlatWeights(flat: seq<real>) returns (ok: bool)
      requires Valid()
      modifies this
      ensures Valid()
      ensures ok <==> paramCount <= |flat|
      ensures weights == if ok then Unflatten(sizes, flat) else old(weights)
      ensures obsMean == old(obsMean) && obsStd == old(obsStd) && obsCount == old(obsCount)
      ensures prevAction == old(prevAction)
    {
      var idx := 0;
      var blocks: seq<seq<real>> := [];
      var k := 0;
      while k < |sizes|
        invariant 0 <= k <= |sizes|
        invariant idx == Total(sizes[..k]) && idx <= |flat|
        invariant blocks == Unflatten(sizes[..k], flat)
      {
        var size := sizes[k];
        assert sizes[..k + 1][..k] == sizes[..k];
        if idx + size > |flat| {
          TotalPrefix(sizes, k + 1);
          return false;
        }
        blocks := blocks + [flat[idx..idx + size]];
        idx := idx + size;
        k := k + 1;
      }
      assert sizes[..k] == sizes;
      weights := blocks;
      ok := true;
    }

    /** `normalize_obs`: one step of the running mean and mean absolute deviation, then standardise. */
    method NormalizeObs(obs: seq<real>) returns (x: seq<real>)
      requires |obs| == |obsMean| == |obsStd|
      modifies this
      ensures obsCount == old(obsCount) + 1
      ensures obsMean == NextMean(old(obsMean), obs, StatStep(obsCount))
      ensures obsStd == NextStd(old(obsStd), obs, obsMean, StatStep(obsCount))
      ensures x == Standardised(obs, obsMean, obsStd)
      ensures weights == old(weights) && prevAction == old(prevAction)
    {
      obsCount := obsCount + 1;
      var a := StatStep(obsCount);
      obsMean := NextMean(obsMean, obs, a);
      obsStd := NextStd(obsStd, obs, obsMean, a);
      x := Standardised(obs, obsMean, obsStd);
    }

    /**
     * `predict`: normalise, run the three tanh layers and map the first two outputs to
     * steering and a throttle floored at 0.3.
     */
    method Predict(obs: seq<real>, m: Math) returns (action: seq<real>)
      requires Valid() && |obs| == inputDim && |obsMean| == inputDim && |obsStd| == inputDim
      requires outputDim >= 2
      modifies this
      ensures Valid() && weights == old(weights) && prevAction == old(prevAction)
      ensures obsCount == old(obsCount) + 1
      ensures obsMean == NextMean(old(obsMean), obs, StatStep(obsCount))
      ensures obsStd == NextStd(old(obsStd), obs, obsMean, StatStep(obsCount))
      ensures action == ActionOf(Forward(weights, Standardised(obs, obsMean, obsStd), inputDim, hiddenDim, outputDim, m))
      ensures Lawful(m) ==> -1.0 < action[0] < 1.0 && THROTTLE_FLOOR <= action[1] < 1.0
    {
      var x := NormalizeObs(obs);
      var out := Forward(weights, x, inputDim, hiddenDim, outputDim, m);
      action := ActionOf(out);
    }

    /** `reset`: fresh normaliser statistics and previous action; the weights stay. */
    method Reset()
      modifies this
      ensures obsMean == Zeros(inputDim) && obsStd == Ones(inputDim) && obsCount == 0
      ensures prevAction == Zeros(outputDim)
      ensures weights == old(weights)
    {
      obsMean := Zeros(inputDim);
      obsStd := Ones(inputDim);
      obsCount := 0;
      prevAction := Zeros(outputDim);
    }

    /**
     * `get_perturbed_agent`: a clone whose blocks are this agent's plus `sigma * noise`;
     * `noise` stands for the per-block `np.random.randn` draws. This agent is not changed.
     */
    method GetPerturbedAgent(sigma: real, noise: seq<seq<real>>) returns (agent: ESAgent)
      requires Valid() && Shaped(noise, sizes)
      ensures fresh(agent) && agent.Valid()
      ensures agent.weights == AddLayers(weights, sigma, noise)
      ensures agent.inputDim == inputDim && agent.outputDim == outputDim && agent.hiddenDim == hiddenDim
      ensures agent.obsMean == obsMean && agent.obsStd == obsStd && agent.obsCount == obsCount
      ensures agent.prevAction == prevAction
    {
      agent := new ESAgent.Copy(this);
      agent.weights := AddLayersInPlace(agent.weights, sigma, noise);
    }

    /**
     * `update`: standardise the rewards by `std + 1e-8`, accumulate the fitness-weighted
     * noise per block, and step every block by `alpha / (sigma * N)` times it. With no
     * results or a zero sigma the final division raises before any block changes.
     */
    method Update(results: seq<(seq<seq<real>>, real)>, alpha: real, sigma: real, m: Math) returns (ok: bool)
      requires Valid() && Lawful(m) && AllShaped(Noises(results), sizes)
      modifies this
      ensures Valid()
      ensures ok <==> |results| > 0 && sigma != 0.0
      ensures weights == if ok then UpdatedWeights(old(weights), sizes, results, alpha, sigma, m) else old(weights)
      ensures obsMean == old(obsMean) && obsStd == old(obsStd) && obsCount == old(obsCount)
      ensures prevAction == old(prevAction)
    {
      if |results| == 0 || sigma == 0.0 {
        return false;
      }
      var rhat := FitnessWeights(results, m);
      var grad := AccumulateGradient(rhat, results, sizes);
      ghost var before := weights;
      weights := AddLayersInPlace(weights, alpha / (sigma * |results| as real), grad);
      assert weights == UpdatedWeights(before, sizes, results, alpha, sigma, m);
      ok := true;
    }

    /**
     * `load`: a record sets the weights, then takes each statistic from the record when
     * present (obs_count restarts at 0 when absent); an old-format vector sets only the weights.
     */
    method Load(p: Payload) returns (ok: bool)
      requires Valid()
      modifies this
      ensures Valid()
      ensures ok <==> Restore(sizes, old(State()), p).Some?
      ensures State() == Restore(sizes, old(State()), p).GetOr(old(State()))
      ensures prevAction == old(prevAction)
    {
      match p
      case Record(w, mean, std, count) =>
        ok := SetFlatWeights(w);
        if ok {
          obsMean := mean.GetOr(obsMean);
          obsStd := std.GetOr(obsStd);
          obsCount := count.GetOr(0);
        }
      case Legacy(flat) =>
        ok := SetFlatWeights(flat);
    }
  }
}
