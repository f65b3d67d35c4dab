/**
 * The effort-dial resampler (`interpolate_dial`): turns the sparse dial
 * events of one trial into a signal sampled on an even time grid over the
 * whole trial, by linear interpolation with clamping at both ends.
 * Arithmetic is exact over `real`; the source works in float32/float64.
 */
module DialResampler {
  import opened Records

  /** Poll rate (samples per second), frame rate and frame count. */
  datatype Config = Config(poll: int, fps: int, frames: int) {
    /** What the resampler needs: a positive frame rate, a non-negative sample count. */
    predicate Valid() {
      fps > 0 && poll >= 0 && frames >= 0
    }
  }

  /** The defaults every caller uses: 20 samples/s, 24 fps, 360 frames. */
  const Default: Config := Config(20, 24, 360)

  /** Number of grid points: the ceiling of poll * frames / fps. */
  function Steps(cfg: Config): (n: nat)
    requires cfg.Valid()
    ensures (n - 1) * cfg.fps < cfg.poll * cfg.frames <= n * cfg.fps
  {
    var total := cfg.poll * cfg.frames;
    var q := (total + cfg.fps - 1) / cfg.fps;
    var r := (total + cfg.fps - 1) % cfg.fps;
    assert total + cfg.fps - 1 == q * cfg.fps + r;
    q
  }

  /** Length of a trial in milliseconds: 1000 * frames / fps. */
  function Duration(cfg: Config): (d: real)
    requires cfg.Valid()
    ensures d >= 0.0
    ensures d * cfg.fps as real == 1000.0 * cfg.frames as real
  {
    1000.0 * cfg.frames as real / cfg.fps as real
  }

  /** With the defaults a trial lasts 15 s and is resampled onto 300 points. */
  lemma DefaultGrid()
    ensures Default.Valid()
    ensures Steps(Default) == 300
    ensures Duration(Default) == 15000.0
  {
  }

  lemma MulLeft(k: real, m: real, step: real, stop: real)
    requires 0.0 <= k <= m && step >= 0.0 && m * step == stop
    ensures 0.0 <= k * step <= stop
  {
    assert (m - k) * step >= 0.0;
  }

  lemma SpacingStep(k: real, step: real)
    ensures (k + 1.0) * step - k * step == step
  {
  }

  lemma EndPoint(stop: real, n: real)
    requires n > 0.0
    ensures n * (stop / n) == stop
    ensures stop >= 0.0 ==> stop / n >= 0.0
  {
  }

  /**
   * `num` points evenly spaced over [0, stop], both ends included; as in
   * numpy, point k is k * step and the last point is set to `stop` itself.
   */
  function Linspace(stop: real, num: nat): (ts: seq<real>)
    ensures |ts| == num
    ensures num >= 1 ==> ts[0] == 0.0
    ensures num >= 2 ==> ts[num - 1] == stop
    ensures num >= 2 ==>
      forall k :: 0 <= k < num - 1 ==> ts[k + 1] - ts[k] == stop / (num - 1) as real
    ensures stop >= 0.0 ==> forall k :: 0 <= k < num ==> 0.0 <= ts[k] <= stop
  {
    if num <= 1 then seq(num, k => 0.0)
    else
      var step := stop / (num - 1) as real;
      var ts := seq(num, k requires 0 <= k < num => if k == num - 1 then stop else k as real * step);
      LinspaceFacts(stop, num, step, ts);
      ts
  }

  lemma LinspaceFacts(stop: real, num: nat, step: real, ts: seq<real>)
    requires num >= 2 && step == stop / (num - 1) as real && |ts| == num
    requires forall k :: 0 <= k < num ==> ts[k] == if k == num - 1 then stop else k as real * step
    ensures forall k :: 0 <= k < num - 1 ==> ts[k + 1] - ts[k] == step
    ensures stop >= 0.0 ==> forall k :: 0 <= k < num ==> 0.0 <= ts[k] <= stop
  {
    EndPoint(stop, (num - 1) as real);
    forall k | 0 <= k < num - 1 ensures ts[k + 1] - ts[k] == step {
      SpacingStep(k as real, step);
    }
    if stop >= 0.0 {
      forall k | 0 <= k < num ensures 0.0 <= ts[k] <= stop {
        if k < num - 1 {
          MulLeft(k as real, (num - 1) as real, step, stop);
        } else {
          assert ts[k] == stop;
        }
      }
    }
  }

  function MinScale(ps: seq<Press>): real
    requires |ps| > 0
  {
    if |ps| == 1 then ps[0].scale
    else var m := MinScale(ps[1..]); if ps[0].scale <= m then ps[0].scale else m
  }

  function MaxScale(ps: seq<Press>): real
    requires |ps| > 0
  {
    if |ps| == 1 then ps[0].scale
    else var m := MaxScale(ps[1..]); if ps[0].scale >= m then ps[0].scale else m
  }

  /** A product with a positive factor is positive only if the other factor is. */
  lemma PositiveFactor(g: real, d: real)
    requires d > 0.0 && g * d > 0.0
    ensures g > 0.0
  {
  }

  lemma FracBelowOne(u: real, d: real)
    requires 0.0 <= u < d
    ensures 0.0 <= u / d < 1.0
  {
    var f := u / d;
    assert f * d == u;
    assert (1.0 - f) * d == d - u;
    PositiveFactor(1.0 - f, d);
    if u > 0.0 {
      PositiveFactor(f, d);
    }
  }

  /** Linear interpolation between two events, at a time in [a.time, b.time). */
  function Lerp(a: Press, b: Press, x: real): (y: real)
    requires a.time <= x < b.time
    ensures a.scale <= b.scale ==> a.scale <= y <= b.scale
    ensures b.scale <= a.scale ==> b.scale <= y <= a.scale
  {
    var d := b.time - a.time;
    var u := x - a.time;
    var slope := (b.scale - a.scale) / d;
    var f := u / d;
    FracBelowOne(u, d);
    assert slope * u == (b.scale - a.scale) * f;
    slope * u + a.scale
  }

  /**
   * numpy's `interp` of the events at time `x`: the first scale before the
   * first event, the last scale from the last event on, and in between the
   * line through the two events whose times enclose `x`.
   */
  function Interp(ps: seq<Press>, x: real): (y: real)
    requires |ps| > 0
    ensures MinScale(ps) <= y <= MaxScale(ps)
  {
    if x < ps[0].time then ps[0].scale
    else if |ps| == 1 then ps[0].scale
    else if x < ps[1].time then
      ScaleBounds(ps[1..], 0);
      Lerp(ps[0], ps[1], x)
    else Interp(ps[1..], x)
  }

  predicate Sorted(ps: seq<Press>) {
    forall i, j :: 0 <= i < j < |ps| ==> ps[i].time <= ps[j].time
  }

  predicate StrictlySorted(ps: seq<Press>) {
    forall i, j :: 0 <= i < j < |ps| ==> ps[i].time < ps[j].time
  }

  lemma {:induction false} ScaleBounds(ps: seq<Press>, i: nat)
    requires i < |ps|
    ensures MinScale(ps) <= ps[i].scale <= MaxScale(ps)
  {
    if |ps| > 1 && i > 0 {
      ScaleBounds(ps[1..], i - 1);
    } else if |ps| > 1 {
    }
  }

  /** At the time of an event, the signal has exactly that event's scale. */
  lemma {:induction false} InterpAtEvent(ps: seq<Press>, i: nat)
    requires StrictlySorted(ps) && i < |ps|
    ensures Interp(ps, ps[i].time) == ps[i].scale
  {
    if i > 0 {
      assert ps[0].time < ps[i].time && ps[1].time <= ps[i].time;
      assert ps[1..][i - 1] == ps[i];
      InterpAtEvent(ps[1..], i - 1);
    }
  }

  /** Before the first event, the signal holds the first scale. */
  lemma InterpBeforeFirst(ps: seq<Press>, x: real)
    requires |ps| > 0 && x < ps[0].time
    ensures Interp(ps, x) == ps[0].scale
  {
  }

  /** From the last event on, the signal holds the last scale. */
  lemma {:induction false} InterpAfterLast(ps: seq<Press>, x: real)
    requires Sorted(ps) && |ps| > 0
    requires x >= ps[|ps| - 1].time
    ensures Interp(ps, x) == ps[|ps| - 1].scale
  {
    if |ps| > 1 {
      assert ps[0].time <= ps[1].time <= ps[|ps| - 1].time;
      InterpAfterLast(ps[1..], x);
    }
  }

  /**
   * `interpolate_dial`: the grid `ts` and the interpolated scales `ys`,
   * two parallel sequences of Steps(cfg) points each.
   */
  function InterpolateDial(ps: seq<Press>, cfg: Config): (r: (seq<real>, seq<real>))
    requires |ps| > 0 && cfg.Valid()
    ensures |r.0| == Steps(cfg) && |r.1| == Steps(cfg)
    ensures r.0 == Linspace(Duration(cfg), Steps(cfg))
    ensures forall k :: 0 <= k < |r.1| ==> r.1[k] == Interp(ps, r.0[k])
    ensures forall k :: 0 <= k < |r.1| ==> MinScale(ps) <= r.1[k] <= MaxScale(ps)
  {
    var ts := Linspace(Duration(cfg), Steps(cfg));
    var ys := seq(|ts|, k requires 0 <= k < |ts| => Interp(ps, ts[k]));
    (ts, ys)
  }

}
