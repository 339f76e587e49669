/**
 * First-in first-out reward delay. The environment's buffer only pops once it holds
 * more than N rewards and reports 0 until then; the wrapper's buffer always appends
 * and then pops the front.
 */
module RewardDelay {
  import opened Numerics

  /** One environment step: the reported reward and the new buffer. */
  function EnvDelay(n: int, buf: seq<real>, raw: real): (real, seq<real>)
  {
    if n > 0 then
      var b := buf + [raw];
      if |b| > n then (b[0], b[1..]) else (0.0, b)
    else (raw, buf)
  }

  /** The rewards reported over a run of raw rewards, and the final buffer. */
  function EnvDelayRun(n: int, buf: seq<real>, rs: seq<real>): (r: (seq<real>, seq<real>))
    ensures |r.0| == |rs|
    decreases |rs|
  {
    if |rs| == 0 then ([], buf)
    else
      var step := EnvDelay(n, buf, rs[0]);
      var rest := EnvDelayRun(n, step.1, rs[1..]);
      ([step.0] + rest.0, rest.1)
  }

  /** Splitting the raw rewards behind a full buffer of length n. */
  lemma ShiftedConcat(buf: seq<real>, rs: seq<real>)
    requires |buf| > 0 && |rs| > 0
    ensures buf + rs == [buf[0]] + ((buf[1..] + [rs[0]]) + rs[1..])
    ensures ((buf[1..] + [rs[0]]) + rs[1..])[..|rs| - 1] == (buf + rs)[1..|rs|]
    ensures ((buf[1..] + [rs[0]]) + rs[1..])[|rs| - 1..] == (buf + rs)[|rs|..]
  {
    assert buf == [buf[0]] + buf[1..];
    assert rs == [rs[0]] + rs[1..];
  }

  /**
   * With N > 0 and a buffer of exactly N entries, every reward leaves N steps later:
   * the reports are the buffer followed by the raw rewards, cut to the run's length,
   * and the buffer keeps length N.
   */
  lemma {:induction false} EnvDelayRunFull(n: int, buf: seq<real>, rs: seq<real>)
    requires n > 0 && |buf| == n
    ensures EnvDelayRun(n, buf, rs).0 == (buf + rs)[..|rs|]
    ensures EnvDelayRun(n, buf, rs).1 == (buf + rs)[|rs|..]
    ensures |EnvDelayRun(n, buf, rs).1| == n
    decreases |rs|
  {
    if |rs| > 0 {
      var next := buf[1..] + [rs[0]];
      assert (buf + [rs[0]])[1..] == next;
      assert EnvDelay(n, buf, rs[0]) == (buf[0], next);
      EnvDelayRunFull(n, next, rs[1..]);
      ShiftedConcat(buf, rs);
      assert (buf + rs)[..|rs|] == [buf[0]] + (buf + rs)[1..|rs|];
    }
  }

  /**
   * After a reset fills the buffer with N zeros, step k (counting from 1) reports 0
   * for k <= N and the raw reward of step k - N afterwards.
   */
  lemma EnvDelayAfterReset(n: int, rs: seq<real>, k: nat)
    requires n > 0 && 1 <= k <= |rs|
    ensures EnvDelayRun(n, Zeros(n), rs).0[k - 1] == if k <= n then 0.0 else rs[k - 1 - n]
    ensures |EnvDelayRun(n, Zeros(n), rs).1| == n
  {
    EnvDelayRunFull(n, Zeros(n), rs);
    assert (Zeros(n) + rs)[k - 1] == if k <= n then 0.0 else rs[k - 1 - n];
  }

  /** With no delay the raw rewards are reported as they come and the buffer is untouched. */
  lemma {:induction false} EnvDelayRunNone(n: int, buf: seq<real>, rs: seq<real>)
    requires n <= 0
    ensures EnvDelayRun(n, buf, rs) == (rs, buf)
    decreases |rs|
  {
    if |rs| > 0 {
      EnvDelayRunNone(n, buf, rs[1..]);
      assert rs == [rs[0]] + rs[1..];
    }
  }

  /** One wrapper step: append, then pop the front. */
  function Shift(buf: seq<real>, raw: real): (r: (real, seq<real>))
    ensures |r.1| == |buf|
  {
    var b := buf + [raw];
    (b[0], b[1..])
  }

  function ShiftRun(buf: seq<real>, rs: seq<real>): (r: (seq<real>, seq<real>))
    ensures |r.0| == |rs|
    decreases |rs|
  {
    if |rs| == 0 then ([], buf)
    else
      var step := Shift(buf, rs[0]);
      var rest := ShiftRun(step.1, rs[1..]);
      ([step.0] + rest.0, rest.1)
  }

  /** Whatever the buffer holds, the wrapper reports it first, then the rewards it was given. */
  lemma {:induction false} ShiftRunDelays(buf: seq<real>, rs: seq<real>)
    ensures ShiftRun(buf, rs).0 == (buf + rs)[..|rs|]
    ensures ShiftRun(buf, rs).1 == (buf + rs)[|rs|..]
    decreases |rs|
  {
    if |rs| > 0 {
      if |buf| == 0 {
        assert Shift(buf, rs[0]) == (rs[0], []);
        ShiftRunDelays([], rs[1..]);
        assert buf + rs == rs;
        assert rs[..|rs|] == [rs[0]] + rs[1..][..|rs| - 1];
      } else {
        var next := buf[1..] + [rs[0]];
        assert (buf + [rs[0]])[1..] == next;
        assert Shift(buf, rs[0]) == (buf[0], next);
        ShiftRunDelays(next, rs[1..]);
        ShiftedConcat(buf, rs);
        assert (buf + rs)[..|rs|] == [buf[0]] + (buf + rs)[1..|rs|];
      }
    }
  }

  /** With a full buffer the two disciplines agree step for step. */
  lemma EnvDelayIsShift(n: int, buf: seq<real>, raw: real)
    requires n > 0 && |buf| == n
    ensures EnvDelay(n, buf, raw) == Shift(buf, raw)
  {
  }
}
