/** The filter nodes: a normalized Direct Form I biquad and the filters
    built on it (Butterworth lowpass, constant-gain resonator), the
    one-pole lowpass and highpass, the DC blocker, the pinking filter and
    the first-order allpass. Samples are reals. The transcendental
    functions used by the coefficient designs are parameters (`Math`), so
    every property below holds whatever they compute. */
module Filter {
  import opened Signals

  const PI: real := 3.141592653589793
  const TAU: real := 6.283185307179586
  const SQRT_2: real := 1.4142135623730951

  /** The transcendental functions the coefficient designs call. */
  datatype Math = Math(tan: real -> real, exp: real -> real, cos: real -> real, sqrt: real -> real)

  /** The one fact about `exp` the pole designs rely on: a negative
      exponent gives a value strictly between 0 and 1. */
  ghost predicate ExpDecays(math: Math)
  {
    forall t: real :: t < 0.0 ==> 0.0 < math.exp(t) < 1.0
  }

  /** Coefficients of the transfer function
      `(b0 + b1 z^-1 + b2 z^-2) / (1 + a1 z^-1 + a2 z^-2)`. */
  datatype BiquadCoefs = BiquadCoefs(a1: real, a2: real, b0: real, b1: real, b2: real)

  /** Both poles lie strictly inside the unit circle (the stability
      triangle of a second-order denominator). */
  predicate Stable(c: BiquadCoefs)
  {
    -1.0 < c.a2 < 1.0 && -(1.0 + c.a2) < c.a1 < 1.0 + c.a2
  }

  lemma QuotientPositive(a: real, b: real)
    requires a > 0.0 && b > 0.0
    ensures a / b > 0.0
  {
  }

  /** The Butterworth denominator `1 + sqrt2 f + f^2` never vanishes. */
  lemma ButterDenominatorPositive(f: real)
    ensures 1.0 + SQRT_2 * f + f * f > 0.0
    ensures 1.0 - SQRT_2 * f + f * f > 0.0
  {
    var h := SQRT_2 / 2.0;
    assert 1.0 + SQRT_2 * f + f * f == (f + h) * (f + h) + (1.0 - h * h);
    assert 1.0 - SQRT_2 * f + f * f == (f - h) * (f - h) + (1.0 - h * h);
  }

  /** Butterworth lowpass design by the bilinear transform, for the
      prewarped frequency `f`: `a0r = 1 / (1 + sqrt2 f + f^2)`,
      `b0 = f^2 a0r`. Its gain `b0` is positive for positive `f`. */
  function ButterCoefsOf(f: real): (r: BiquadCoefs)
    ensures f > 0.0 ==> r.b0 > 0.0
  {
    ButterDenominatorPositive(f);
    var d := 1.0 + SQRT_2 * f + f * f;
    var a0r := 1.0 / d;
    var fa := f * a0r;
    var b0 := f * fa;
    BiquadCoefs((2.0 * f * f - 2.0) * a0r, (1.0 - SQRT_2 * f + f * f) * a0r, b0, 2.0 * b0, b0)
  }

  /** The Butterworth coefficients for a cutoff, with
      `f = tan(pi cutoff / sampleRate)`. */
  function ButterLowpassCoefs(math: Math, sampleRate: real, cutoff: real): BiquadCoefs
    requires sampleRate != 0.0
  {
    ButterCoefsOf(math.tan(cutoff * PI / sampleRate))
  }

  /** Both zeros sit at Nyquist: `b1 = 2 b0`, `b2 = b0`, so the numerator
      vanishes at `z = -1`. */
  lemma ButterZeros(f: real)
    ensures ButterCoefsOf(f).b1 == 2.0 * ButterCoefsOf(f).b0 && ButterCoefsOf(f).b2 == ButterCoefsOf(f).b0
    ensures ButterCoefsOf(f).b0 - ButterCoefsOf(f).b1 + ButterCoefsOf(f).b2 == 0.0
  {
  }

  /** The gain at DC is exactly one: numerator and denominator agree at
      `z = 1`. */
  lemma ButterUnitDCGain(f: real)
    ensures ButterCoefsOf(f).b0 + ButterCoefsOf(f).b1 + ButterCoefsOf(f).b2 ==
      1.0 + ButterCoefsOf(f).a1 + ButterCoefsOf(f).a2
  {
    ButterDenominatorPositive(f);
  }

  /** `1 - a2 = 2 sqrt2 f a0r > 0`. */
  lemma ButterPoleProduct(f: real)
    requires f > 0.0
    ensures ButterCoefsOf(f).a2 < 1.0
  {
    ButterDenominatorPositive(f);
  }

  /** `1 + a2 - a1 = 4 a0r > 0`. */
  lemma ButterNyquistMargin(f: real)
    requires f > 0.0
    ensures 1.0 + ButterCoefsOf(f).a2 - ButterCoefsOf(f).a1 > 0.0
  {
    ButterDenominatorPositive(f);
  }

  /** The Butterworth design is stable for every positive prewarped
      frequency: `1 + a1 + a2 = 4 b0 > 0` by the unit DC gain, and the
      other two margins are positive. */
  lemma ButterStable(f: real)
    requires f > 0.0
    ensures Stable(ButterCoefsOf(f))
  {
    ButterZeros(f);
    ButterUnitDCGain(f);
    ButterPoleProduct(f);
    ButterNyquistMargin(f);
  }

  /** For cutoffs with `tan(pi cutoff / sampleRate) > 0`, that is strictly
      between 0 and Nyquist, the installed Butterworth biquad is stable. */
  lemma ButterLowpassStable(math: Math, sampleRate: real, cutoff: real)
    requires sampleRate != 0.0 && math.tan(cutoff * PI / sampleRate) > 0.0
    ensures Stable(ButterLowpassCoefs(math, sampleRate, cutoff))
  {
    ButterStable(math.tan(cutoff * PI / sampleRate));
  }

  /** The pole radius of a resonator, `exp(-pi bandwidth / sampleRate)`. */
  function PoleRadius(math: Math, sampleRate: real, bandwidth: real): real
    requires sampleRate != 0.0
  {
    math.exp((-PI) * bandwidth / sampleRate)
  }

  /** A positive bandwidth puts the resonator's poles strictly inside the
      unit circle, which is what `ResonatorStable` asks for. */
  lemma PoleRadiusRange(math: Math, sampleRate: real, bandwidth: real)
    requires ExpDecays(math) && sampleRate > 0.0 && bandwidth > 0.0
    ensures 0.0 < PoleRadius(math, sampleRate, bandwidth) < 1.0
  {
    QuotientPositive(PI * bandwidth, sampleRate);
    assert (-PI) * bandwidth / sampleRate == -(PI * bandwidth / sampleRate);
  }

  /** Constant-gain resonator design: poles at radius `r`, zeros at DC and
      Nyquist (`b1 = 0`, `b2 = -b0`), `a2 = r^2`. */
  function ResonatorCoefs(math: Math, sampleRate: real, center: real, bandwidth: real): (c: BiquadCoefs)
    requires sampleRate != 0.0
    ensures c.b1 == 0.0 && c.b2 == -c.b0
    ensures c.a2 == PoleRadius(math, sampleRate, bandwidth) * PoleRadius(math, sampleRate, bandwidth)
    ensures c.b0 + c.b1 + c.b2 == 0.0 && c.b0 - c.b1 + c.b2 == 0.0
  {
    var r := PoleRadius(math, sampleRate, bandwidth);
    var b0 := math.sqrt(1.0 - r * r) * 0.5;
    BiquadCoefs(-2.0 * r * math.cos(TAU * center / sampleRate), r * r, b0, 0.0, -b0)
  }

  /** `|r k| <= r` for `0 <= r` and `|k| <= 1`. */
  lemma BoundedProduct(r: real, k: real)
    requires 0.0 <= r && -1.0 <= k <= 1.0
    ensures -r <= r * k <= r
  {
  }

  /** A resonator whose pole radius is below one is stable, given only that
      the cosine stays in `[-1, 1]`. */
  lemma ResonatorStable(math: Math, sampleRate: real, center: real, bandwidth: real)
    requires sampleRate != 0.0
    requires 0.0 <= PoleRadius(math, sampleRate, bandwidth) < 1.0
    requires -1.0 <= math.cos(TAU * center / sampleRate) <= 1.0
    ensures Stable(ResonatorCoefs(math, sampleRate, center, bandwidth))
  {
    var r := PoleRadius(math, sampleRate, bandwidth);
    var k := math.cos(TAU * center / sampleRate);
    var c := ResonatorCoefs(math, sampleRate, center, bandwidth);
    assert c.a1 == -2.0 * r * k && c.a2 == r * r;
    PolesInside(r, k);
  }

  /** The denominator `1 - 2 r k z^-1 + r^2 z^-2` is stable for `0 <= r < 1`
      and `|k| <= 1`. */
  lemma PolesInside(r: real, k: real)
    requires 0.0 <= r < 1.0 && -1.0 <= k <= 1.0
    ensures -1.0 < r * r < 1.0 && -(1.0 + r * r) < -2.0 * r * k < 1.0 + r * r
  {
    RadiusGap(r);
    BoundedProduct(r, k);
    BoundedProduct(r, r);
    PolesLinear(r, r * k, r * r);
  }

  /** The linear step of `PolesInside`, over the products `p = r k` and
      `rr = r^2`. */
  lemma PolesLinear(r: real, p: real, rr: real)
    requires 0.0 <= r < 1.0 && -r <= p <= r && -r <= rr <= r && 2.0 * r < 1.0 + rr
    ensures -1.0 < rr < 1.0 && -(1.0 + rr) < -2.0 * p < 1.0 + rr
  {
  }

  /** `(1 - r)^2`, written out. */
  function PoleMargin(r: real): real
  {
    1.0 + r * r - 2.0 * r
  }

  /** A product kept behind a name, so that facts about it carry over
      between lemmas. */
  function Times(t: real, u: real): real
  {
    t * u
  }

  lemma PoleMarginAt(t: real, u: real)
    requires u == t
    ensures PoleMargin(1.0 - t) == Times(t, u)
  {
  }

  lemma TimesPositive(t: real, u: real)
    requires t > 0.0 && u > 0.0
    ensures Times(t, u) > 0.0
  {
  }

  lemma PoleMarginPositive(t: real, u: real)
    requires t > 0.0 && u == t
    ensures PoleMargin(1.0 - t) > 0.0
  {
    PoleMarginAt(t, u);
    TimesPositive(t, u);
  }

  /** `2 r < 1 + r^2` whenever `r < 1`. */
  lemma RadiusGap(r: real)
    requires r < 1.0
    ensures 2.0 * r < 1.0 + r * r
  {
    PoleMarginPositive(1.0 - r, 1.0 - r);
    assert 1.0 - (1.0 - r) == r;
  }

  /** Arbitrary coefficients, installed as given. */
  function ArbitraryCoefs(a1: real, a2: real, b0: real, b1: real, b2: real): (c: BiquadCoefs)
    ensures c.a1 == a1 && c.a2 == a2 && c.b0 == b0 && c.b1 == b1 && c.b2 == b2
  {
    BiquadCoefs(a1, a2, b0, b1, b2)
  }

  /** Every coefficient set is reachable through `ArbitraryCoefs`. */
  lemma ArbitraryCoefsRoundTrip(c: BiquadCoefs)
    ensures ArbitraryCoefs(c.a1, c.a2, c.b0, c.b1, c.b2) == c
  {
  }

  // ----- Direct Form I -----

  /** The two previous inputs and outputs of a Direct Form I biquad. */
  datatype BiquadHistory = BiquadHistory(x1: real, x2: real, y1: real, y2: real)

  const ZeroHistory: BiquadHistory := BiquadHistory(0.0, 0.0, 0.0, 0.0)

  /** The Direct Form I difference equation. */
  function BiquadOutput(c: BiquadCoefs, h: BiquadHistory, x0: real): real
  {
    c.b0 * x0 + c.b1 * h.x1 + c.b2 * h.x2 - c.a1 * h.y1 - c.a2 * h.y2
  }

  /** Push a new input and output into the history. */
  function BiquadShift(h: BiquadHistory, x0: real, y0: real): BiquadHistory
  {
    BiquadHistory(x0, h.x1, y0, h.y1)
  }

  /** The outputs of a biquad started in history `h` and fed `xs`. */
  function BiquadRun(c: BiquadCoefs, h: BiquadHistory, xs: seq<real>): (ys: seq<real>)
    ensures |ys| == |xs|
    ensures |xs| > 0 ==> ys[0] == BiquadOutput(c, h, xs[0])
    decreases |xs|
  {
    if xs == [] then []
    else
      var y0 := BiquadOutput(c, h, xs[0]);
      [y0] + BiquadRun(c, BiquadShift(h, xs[0], y0), xs[1..])
  }

  // ----- The transposed Direct Form II realisation of the same difference equation -----

  /** The two state variables of a transposed Direct Form II biquad. */
  datatype TransposedState = TransposedState(s1: real, s2: real)

  /** The output of one transposed step. */
  function TransposedOutput(c: BiquadCoefs, s: TransposedState, x0: real): real
  {
    c.b0 * x0 + s.s1
  }

  /** The state after one transposed step. */
  function TransposedNext(c: BiquadCoefs, s: TransposedState, x0: real): TransposedState
  {
    var y0 := TransposedOutput(c, s, x0);
    TransposedState(s.s2 + c.b1 * x0 - c.a1 * y0, c.b2 * x0 - c.a2 * y0)
  }

  function TransposedRun(c: BiquadCoefs, s: TransposedState, xs: seq<real>): (ys: seq<real>)
    ensures |ys| == |xs|
    decreases |xs|
  {
    if xs == [] then []
    else [TransposedOutput(c, s, xs[0])] + TransposedRun(c, TransposedNext(c, s, xs[0]), xs[1..])
  }

  /** The transposed state equivalent to a Direct Form I history. */
  function TransposedOf(c: BiquadCoefs, h: BiquadHistory): TransposedState
  {
    TransposedState(c.b1 * h.x1 + c.b2 * h.x2 - c.a1 * h.y1 - c.a2 * h.y2, c.b2 * h.x1 - c.a2 * h.y1)
  }

  /** A filter at rest has a transposed state at rest. */
  lemma TransposedOfRest(c: BiquadCoefs)
    ensures TransposedOf(c, ZeroHistory) == TransposedState(0.0, 0.0)
  {
  }

  /** One step: corresponding states give the same output... */
  lemma TransposedStepOutput(c: BiquadCoefs, h: BiquadHistory, x0: real)
    ensures TransposedOutput(c, TransposedOf(c, h), x0) == BiquadOutput(c, h, x0)
  {
  }

  /** ...and move to corresponding states. */
  lemma TransposedStepNext(c: BiquadCoefs, h: BiquadHistory, x0: real)
    ensures TransposedNext(c, TransposedOf(c, h), x0) == TransposedOf(c, BiquadShift(h, x0, BiquadOutput(c, h, x0)))
  {
    TransposedStepOutput(c, h, x0);
  }

  /** Direct Form I and transposed Direct Form II compute the same outputs
      from corresponding states, in particular from rest. */
  lemma {:induction false} BiquadTransposedAgrees(c: BiquadCoefs, h: BiquadHistory, xs: seq<real>)
    ensures BiquadRun(c, h, xs) == TransposedRun(c, TransposedOf(c, h), xs)
    decreases |xs|
  {
    if xs != [] {
      var y0 := BiquadOutput(c, h, xs[0]);
      TransposedStepOutput(c, h, xs[0]);
      TransposedStepNext(c, h, xs[0]);
      BiquadTransposedAgrees(c, BiquadShift(h, xs[0], y0), xs[1..]);
    }
  }

  /** `a u + b v`. */
  function Blend(a: real, u: real, b: real, v: real): real
  {
    a * u + b * v
  }

  /** `a u + b v`, sample by sample. */
  function Mix(a: real, u: seq<real>, b: real, v: seq<real>): (w: seq<real>)
    requires |u| == |v|
    ensures |w| == |u| && forall i :: 0 <= i < |u| ==> w[i] == Blend(a, u[i], b, v[i])
  {
    seq(|u|, i requires 0 <= i < |u| => Blend(a, u[i], b, v[i]))
  }

  function MixHistory(a: real, h: BiquadHistory, b: real, g: BiquadHistory): BiquadHistory
  {
    BiquadHistory(Blend(a, h.x1, b, g.x1), Blend(a, h.x2, b, g.x2), Blend(a, h.y1, b, g.y1), Blend(a, h.y2, b, g.y2))
  }

  lemma BiquadOutputLinear(c: BiquadCoefs, a: real, h: BiquadHistory, x: real, b: real, g: BiquadHistory, y: real)
    ensures BiquadOutput(c, MixHistory(a, h, b, g), Blend(a, x, b, y)) == Blend(a, BiquadOutput(c, h, x), b, BiquadOutput(c, g, y))
  {
    assert c.b0 * (a * x + b * y) == a * (c.b0 * x) + b * (c.b0 * y);
    assert c.b1 * (a * h.x1 + b * g.x1) == a * (c.b1 * h.x1) + b * (c.b1 * g.x1);
    assert c.b2 * (a * h.x2 + b * g.x2) == a * (c.b2 * h.x2) + b * (c.b2 * g.x2);
    assert c.a1 * (a * h.y1 + b * g.y1) == a * (c.a1 * h.y1) + b * (c.a1 * g.y1);
    assert c.a2 * (a * h.y2 + b * g.y2) == a * (c.a2 * h.y2) + b * (c.a2 * g.y2);
  }

  /** Shifting commutes with mixing. */
  lemma BiquadShiftLinear(a: real, h: BiquadHistory, x: real, u: real, b: real, g: BiquadHistory, y: real, v: real)
    ensures BiquadShift(MixHistory(a, h, b, g), Blend(a, x, b, y), Blend(a, u, b, v)) == MixHistory(a, BiquadShift(h, x, u), b, BiquadShift(g, y, v))
  {
  }

  /** A biquad is linear: mixing the starting histories and the inputs
      mixes the outputs the same way. */
  lemma {:induction false} BiquadSuperposition(c: BiquadCoefs, a: real, h: BiquadHistory, xs: seq<real>, b: real, g: BiquadHistory, ys: seq<real>)
    requires |xs| == |ys|
    ensures BiquadRun(c, MixHistory(a, h, b, g), Mix(a, xs, b, ys)) == Mix(a, BiquadRun(c, h, xs), b, BiquadRun(c, g, ys))
    decreases |xs|
  {
    if xs != [] {
      var yh := BiquadOutput(c, h, xs[0]);
      var yg := BiquadOutput(c, g, ys[0]);
      var h1, g1 := BiquadShift(h, xs[0], yh), BiquadShift(g, ys[0], yg);
      var zs, mh := Mix(a, xs, b, ys), MixHistory(a, h, b, g);
      MixHead(a, xs, b, ys);
      BiquadOutputLinear(c, a, h, xs[0], b, g, ys[0]);
      BiquadShiftLinear(a, h, xs[0], yh, b, g, ys[0], yg);
      assert zs[0] == Blend(a, xs[0], b, ys[0]) && zs[1..] == Mix(a, xs[1..], b, ys[1..]);
      assert BiquadRun(c, mh, zs) == [Blend(a, yh, b, yg)] + BiquadRun(c, MixHistory(a, h1, b, g1), zs[1..]);
      BiquadSuperposition(c, a, h1, xs[1..], b, g1, ys[1..]);
      var rh, rg := BiquadRun(c, h, xs), BiquadRun(c, g, ys);
      assert rh[0] == yh && rh[1..] == BiquadRun(c, h1, xs[1..]);
      assert rg[0] == yg && rg[1..] == BiquadRun(c, g1, ys[1..]);
      MixHead(a, rh, b, rg);
    }
  }

  /** The first sample of a mix, and the mix of the rest. */
  lemma MixHead(a: real, u: seq<real>, b: real, v: seq<real>)
    requires |u| == |v| > 0
    ensures Mix(a, u, b, v) == [Blend(a, u[0], b, v[0])] + Mix(a, u[1..], b, v[1..])
  {
    var l, r := Mix(a, u, b, v), [Blend(a, u[0], b, v[0])] + Mix(a, u[1..], b, v[1..]);
    assert forall i :: 0 <= i < |l| ==> l[i] == r[i] by {
      forall i | 0 <= i < |l| ensures l[i] == r[i] {
        if i > 0 {
          assert r[i] == Mix(a, u[1..], b, v[1..])[i - 1];
        }
      }
    }
  }

  /** At rest with silent input a biquad stays silent. */
  lemma BiquadSilence(c: BiquadCoefs, xs: seq<real>)
    requires forall i :: 0 <= i < |xs| ==> xs[i] == 0.0
    ensures forall i :: 0 <= i < |xs| ==> BiquadRun(c, ZeroHistory, xs)[i] == 0.0
  {
    assert MixHistory(0.0, ZeroHistory, 0.0, ZeroHistory) == ZeroHistory;
    assert Mix(0.0, xs, 0.0, xs) == xs;
    BiquadSuperposition(c, 0.0, ZeroHistory, xs, 0.0, ZeroHistory, xs);
  }

  /** Second-order IIR filter in normalized Direct Form I. */
  class Biquad {
    var coefs: BiquadCoefs
    var x1: real
    var x2: real
    var y1: real
    var y2: real
    var sampleRate: real

    function History(): BiquadHistory
      reads this
    {
      BiquadHistory(x1, x2, y1, y2)
    }

    /** All coefficients and history zero. */
    constructor ()
      ensures coefs == BiquadCoefs(0.0, 0.0, 0.0, 0.0, 0.0)
      ensures History() == ZeroHistory && sampleRate == DEFAULT_SR
    {
      coefs := BiquadCoefs(0.0, 0.0, 0.0, 0.0, 0.0);
      x1, x2, y1, y2 := 0.0, 0.0, 0.0, 0.0;
      sampleRate := DEFAULT_SR;
    }

    constructor WithCoefs(coefs: BiquadCoefs)
      ensures this.coefs == coefs
      ensures History() == ZeroHistory && sampleRate == DEFAULT_SR
    {
      this.coefs := coefs;
      x1, x2, y1, y2 := 0.0, 0.0, 0.0, 0.0;
      sampleRate := DEFAULT_SR;
    }

    method SetCoefs(coefs: BiquadCoefs)
      modifies this`coefs
      ensures this.coefs == coefs
    {
      this.coefs := coefs;
    }

    /** The setting `(a1, a2, b0, b1, b2)` becomes the coefficients. */
    method Set(a1: real, a2: real, b0: real, b1: real, b2: real)
      modifies this`coefs
      ensures coefs == BiquadCoefs(a1, a2, b0, b1, b2)
    {
      SetCoefs(ArbitraryCoefs(a1, a2, b0, b1, b2));
    }

    /** Clear the history; coefficients and sample rate are kept. */
    method Reset()
      modifies this`x1, this`x2, this`y1, this`y2
      ensures History() == ZeroHistory
    {
      x1, x2, y1, y2 := 0.0, 0.0, 0.0, 0.0;
    }

    method SetSampleRate(sampleRate: real)
      modifies this`sampleRate
      ensures this.sampleRate == sampleRate
    {
      this.sampleRate := sampleRate;
    }

    /** One step of the difference equation, then the history shift. */
    method Tick(x0: real) returns (y0: real)
      modifies this`x1, this`x2, this`y1, this`y2
      ensures y0 == BiquadOutput(coefs, old(History()), x0)
      ensures History() == BiquadShift(old(History()), x0, y0)
    {
      y0 := coefs.b0 * x0 + coefs.b1 * x1 + coefs.b2 * x2 - coefs.a1 * y1 - coefs.a2 * y2;
      x2 := x1;
      x1 := x0;
      y2 := y1;
      y1 := y0;
    }
  }

  /** Butterworth lowpass. `n` is the number of inputs: 1, or 2 when input 1
      modulates the cutoff. */
  class ButterLowpass {
    const n: nat
    const math: Math
    const biquad: Biquad
    var sampleRate: real
    var cutoff: real

    ghost predicate Valid()
      reads this, biquad
    {
      (n == 1 || n == 2) && sampleRate != 0.0 && biquad.coefs == ButterLowpassCoefs(math, sampleRate, cutoff)
    }

    constructor (n: nat, math: Math, cutoff: real)
      requires n == 1 || n == 2
      ensures Valid() && fresh(biquad)
      ensures this.n == n && this.math == math && this.cutoff == cutoff && sampleRate == DEFAULT_SR
      ensures biquad.History() == ZeroHistory && biquad.sampleRate == DEFAULT_SR
    {
      this.n := n;
      this.math := math;
      biquad := new Biquad();
      sampleRate := DEFAULT_SR;
      this.cutoff := 0.0;
      new;
      biquad.Reset();
      SetCutoff(cutoff);
    }

    method SetCutoff(cutoff: real)
      requires sampleRate != 0.0
      modifies this`cutoff, biquad`coefs
      ensures this.cutoff == cutoff && biquad.coefs == ButterLowpassCoefs(math, sampleRate, cutoff)
    {
      biquad.SetCoefs(ButterLowpassCoefs(math, sampleRate, cutoff));
      this.cutoff := cutoff;
    }

    method Set(setting: real)
      requires Valid()
      modifies this`cutoff, biquad`coefs
      ensures Valid() && cutoff == setting
    {
      SetCutoff(setting);
    }

    /** Clear the biquad's history only. */
    method Reset()
      modifies biquad`x1, biquad`x2, biquad`y1, biquad`y2
      ensures biquad.History() == ZeroHistory
    {
      biquad.Reset();
    }

    /** Store the rate and re-derive the coefficients from the kept cutoff. */
    method SetSampleRate(sampleRate: real)
      requires Valid() && sampleRate != 0.0
      modifies this`sampleRate, this`cutoff, biquad`sampleRate, biquad`coefs
      ensures Valid()
      ensures this.sampleRate == sampleRate && biquad.sampleRate == sampleRate && cutoff == old(cutoff)
    {
      this.sampleRate := sampleRate;
      biquad.SetSampleRate(sampleRate);
      SetCutoff(cutoff);
    }

    /** Filter one sample; with two inputs a cutoff different from the
        stored one is installed first. */
    method Tick(input: seq<real>) returns (y: real)
      requires Valid() && |input| == n
      modifies this`cutoff, biquad`coefs, biquad`x1, biquad`x2, biquad`y1, biquad`y2
      ensures Valid()
      ensures n == 2 ==> cutoff == input[1]
      ensures n == 1 || input[1] == old(cutoff) ==> cutoff == old(cutoff) && biquad.coefs == old(biquad.coefs)
      ensures y == BiquadOutput(biquad.coefs, old(biquad.History()), input[0])
      ensures biquad.History() == BiquadShift(old(biquad.History()), input[0], y)
    {
      if n > 1 {
        var c := input[1];
        if c != cutoff {
          SetCutoff(c);
        }
      }
      y := biquad.Tick(input[0]);
    }
  }

  /** Constant-gain bandpass resonator. `n` is the number of inputs: 1, or 3
      when inputs 1 and 2 modulate the center and the bandwidth. */
  class Resonator {
    const n: nat
    const math: Math
    const biquad: Biquad
    var sampleRate: real
    var center: real
    var bandwidth: real

    ghost predicate Valid()
      reads this, biquad
    {
      (n == 1 || n == 3) && sampleRate != 0.0 && biquad.coefs == ResonatorCoefs(math, sampleRate, center, bandwidth)
    }

    constructor (n: nat, math: Math, center: real, bandwidth: real)
      requires n == 1 || n == 3
      ensures Valid() && fresh(biquad)
      ensures this.n == n && this.math == math && sampleRate == DEFAULT_SR
      ensures this.center == center && this.bandwidth == bandwidth
      ensures biquad.History() == ZeroHistory && biquad.sampleRate == DEFAULT_SR
    {
      this.n := n;
      this.math := math;
      biquad := new Biquad();
      sampleRate := DEFAULT_SR;
      this.center := center;
      this.bandwidth := bandwidth;
      new;
      biquad.Reset();
      SetCenterBandwidth(center, bandwidth);
    }

    method SetCenterBandwidth(center: real, bandwidth: real)
      requires sampleRate != 0.0
      modifies this`center, this`bandwidth, biquad`coefs
      ensures this.center == center && this.bandwidth == bandwidth
      ensures biquad.coefs == ResonatorCoefs(math, sampleRate, center, bandwidth)
    {
      biquad.SetCoefs(ResonatorCoefs(math, sampleRate, center, bandwidth));
      this.center := center;
      this.bandwidth := bandwidth;
    }

    method Set(center: real, bandwidth: real)
      requires Valid()
      modifies this`center, this`bandwidth, biquad`coefs
      ensures Valid() && this.center == center && this.bandwidth == bandwidth
    {
      SetCenterBandwidth(center, bandwidth);
    }

    method Reset()
      modifies biquad`x1, biquad`x2, biquad`y1, biquad`y2
      ensures biquad.History() == ZeroHistory
    {
      biquad.Reset();
    }

    /** Store the rate and re-derive the coefficients from the kept center
        and bandwidth. The inner biquad's own rate is not updated. */
    method SetSampleRate(sampleRate: real)
      requires Valid() && sampleRate != 0.0
      modifies this`sampleRate, this`center, this`bandwidth, biquad`coefs
      ensures Valid() && this.sampleRate == sampleRate
      ensures center == old(center) && bandwidth == old(bandwidth)
    {
      this.sampleRate := sampleRate;
      SetCenterBandwidth(center, bandwidth);
    }

    /** Filter one sample; with three inputs a center or bandwidth different
        from the stored pair is installed first. */
    method Tick(input: seq<real>) returns (y: real)
      requires Valid() && |input| == n
      modifies this`center, this`bandwidth, biquad`coefs, biquad`x1, biquad`x2, biquad`y1, biquad`y2
      ensures Valid()
      ensures n == 3 ==> center == input[1] && bandwidth == input[2]
      ensures n == 1 || (input[1] == old(center) && input[2] == old(bandwidth)) ==>
        center == old(center) && bandwidth == old(bandwidth) && biquad.coefs == old(biquad.coefs)
      ensures y == BiquadOutput(biquad.coefs, old(biquad.History()), input[0])
      ensures biquad.History() == BiquadShift(old(biquad.History()), input[0], y)
    {
      if n >= 3 {
        var c, b := input[1], input[2];
        if c != center || b != bandwidth {
          biquad.SetCoefs(ResonatorCoefs(math, sampleRate, c, b));
          center := c;
          bandwidth := b;
        }
      }
      y := biquad.Tick(input[0]);
    }
  }

  // ----- One-pole filters -----

  /** `c^k`. */
  function Power(c: real, k: nat): real
  {
    if k == 0 then 1.0 else c * Power(c, k - 1)
  }

  function Abs(x: real): real
  {
    if x < 0.0 then -x else x
  }

  lemma ProductNonnegative(a: real, b: real)
    requires 0.0 <= a && 0.0 <= b
    ensures a * b >= 0.0
  {
  }

  lemma ProductInUnit(a: real, b: real)
    requires 0.0 <= a <= 1.0 && 0.0 <= b <= 1.0
    ensures 0.0 <= a * b <= 1.0
  {
    ProductNonnegative(a, b);
    ProductNonnegative(1.0 - a, b);
  }

  /** Powers of a factor in `[0, 1]` stay in `[0, 1]`. */
  lemma {:induction false} PowerInUnit(c: real, k: nat)
    requires 0.0 <= c <= 1.0
    ensures 0.0 <= Power(c, k) <= 1.0
  {
    if k > 0 {
      PowerInUnit(c, k - 1);
      ProductInUnit(c, Power(c, k - 1));
    }
  }

  /** One step of Bernoulli's inequality, with `d = 1 - c` and `m = k`. */
  lemma BernoulliStep(p: real, d: real, m: real)
    requires 0.0 <= p && 0.0 <= d <= 1.0 && 0.0 <= m
    requires p * (1.0 + m * d) <= 1.0
    ensures (1.0 - d) * p * (1.0 + (m + 1.0) * d) <= 1.0
  {
    assert (1.0 - d) * p * (1.0 + (m + 1.0) * d) == p * (1.0 + m * d) - p * (d * d) * (m + 1.0);
    ProductNonnegative(d, d);
    ProductNonnegative(p, d * d);
    ProductNonnegative(p * (d * d), m + 1.0);
  }

  /** The Bernoulli bound `1 + k (1 - c)`, which grows without limit for `c < 1`. */
  function Spread(c: real, k: nat): real
  {
    1.0 + (k as real) * (1.0 - c)
  }

  lemma SpreadAtLeastOne(c: real, k: nat)
    requires c <= 1.0
    ensures Spread(c, k) >= 1.0
  {
    ProductNonnegative(k as real, 1.0 - c);
  }

  /** Bernoulli's inequality: `c^k <= 1 / (1 + k (1 - c))`, so for `c < 1`
      the powers tend to zero. */
  lemma {:induction false} PowerBernoulli(c: real, k: nat)
    requires 0.0 <= c <= 1.0
    ensures Power(c, k) * Spread(c, k) <= 1.0
  {
    if k > 0 {
      PowerBernoulli(c, k - 1);
      PowerInUnit(c, k - 1);
      BernoulliLift(c, k, Power(c, k - 1), Power(c, k));
    }
  }

  /** The inductive step of `PowerBernoulli`, over `p = c^(k-1)` and `q = c^k`. */
  lemma BernoulliLift(c: real, k: nat, p: real, q: real)
    requires 0.0 <= c <= 1.0 && k > 0 && 0.0 <= p && p * Spread(c, k - 1) <= 1.0 && q == c * p
    ensures q * Spread(c, k) <= 1.0
  {
    BernoulliStep(p, 1.0 - c, (k - 1) as real);
    assert Spread(c, k) == 1.0 + ((k - 1) as real + 1.0) * (1.0 - c);
  }

  /** `|e| m <= |d|` for `e = p d`, `p >= 0` and `p m <= 1`. */
  lemma ScaledDistance(p: real, d: real, m: real, e: real)
    requires 0.0 <= p && 0.0 <= m && p * m <= 1.0 && e == p * d
    ensures Abs(e) * m <= Abs(d)
  {
    assert Abs(e) == p * Abs(d);
    assert p * Abs(d) * m == (p * m) * Abs(d);
  }

  /** `|e| m <= |d|`: `e` is at most `d` divided by `m`, in absolute value. */
  predicate ShrunkBy(e: real, d: real, m: real)
  {
    Abs(e) * m <= Abs(d)
  }

  /** Scaling by `c^k` with `0 <= c < 1` divides a distance by at least
      `1 + k (1 - c)`. */
  lemma GeometricBound(c: real, k: nat, d: real, e: real)
    requires 0.0 <= c < 1.0 && e == Power(c, k) * d
    ensures ShrunkBy(e, d, Spread(c, k))
  {
    PowerInUnit(c, k);
    PowerBernoulli(c, k);
    SpreadAtLeastOne(c, k);
    ScaledDistance(Power(c, k), d, Spread(c, k), e);
  }

  /** The pole `exp(-2 pi cutoff / sampleRate)` of the one-pole lowpass and
      highpass. */
  function PoleCoeff(math: Math, sampleRate: real, cutoff: real): real
    requires sampleRate != 0.0
  {
    math.exp((-TAU) * cutoff / sampleRate)
  }

  /** A positive cutoff puts the one-pole coefficient strictly inside `(0, 1)`. */
  lemma PoleCoeffRange(math: Math, sampleRate: real, cutoff: real)
    requires ExpDecays(math) && sampleRate > 0.0 && cutoff > 0.0
    ensures 0.0 < PoleCoeff(math, sampleRate, cutoff) < 1.0
  {
    QuotientPositive(TAU * cutoff, sampleRate);
    assert (-TAU) * cutoff / sampleRate == -(TAU * cutoff / sampleRate);
  }

  /** The one-pole lowpass recurrence: the distance to the input shrinks by
      the factor `c` each step, so an input equal to the state leaves it. */
  function LowpoleStep(c: real, value: real, x: real): (r: real)
    ensures r - x == c * (value - x)
    ensures value == x ==> r == value
  {
    (1.0 - c) * x + c * value
  }

  /** The state after `k` steps of constant input `x`. */
  function LowpoleHold(c: real, value: real, x: real, k: nat): real
  {
    if k == 0 then value else LowpoleStep(c, LowpoleHold(c, value, x, k - 1), x)
  }

  /** Under a constant input the distance to the input is scaled by `c^k`
      after `k` steps. */
  lemma {:induction false} LowpoleConverges(c: real, value: real, x: real, k: nat)
    ensures LowpoleHold(c, value, x, k) - x == Power(c, k) * (value - x)
  {
    if k > 0 {
      LowpoleConverges(c, value, x, k - 1);
      assert c * (Power(c, k - 1) * (value - x)) == (c * Power(c, k - 1)) * (value - x);
    }
  }

  /** With a pole in `[0, 1)` (as `PoleCoeffRange` gives) the state converges
      to a constant input: after `k` steps its distance is at most the
      initial distance divided by `1 + k (1 - c)`. */
  lemma LowpoleDecays(c: real, value: real, x: real, k: nat)
    requires 0.0 <= c < 1.0
    ensures ShrunkBy(LowpoleHold(c, value, x, k) - x, value - x, Spread(c, k))
  {
    LowpoleConverges(c, value, x, k);
    DistanceShrinks(c, k, value, x, LowpoleHold(c, value, x, k));
  }

  lemma DistanceShrinks(c: real, k: nat, value: real, x: real, h: real)
    requires 0.0 <= c < 1.0 && h - x == Power(c, k) * (value - x)
    ensures ShrunkBy(h - x, value - x, Spread(c, k))
  {
    GeometricBound(c, k, value - x, h - x);
  }

  /** One-pole lowpass. `n` is 1, or 2 when input 1 modulates the cutoff. */
  class Lowpole {
    const n: nat
    const math: Math
    var value: real
    var coeff: real
    var cutoff: real
    var sampleRate: real

    ghost predicate Valid()
      reads this
    {
      (n == 1 || n == 2) && sampleRate != 0.0 && coeff == PoleCoeff(math, sampleRate, cutoff)
    }

    constructor (n: nat, math: Math, cutoff: real)
      requires n == 1 || n == 2
      ensures Valid() && this.n == n && this.math == math
      ensures value == 0.0 && this.cutoff == cutoff && sampleRate == DEFAULT_SR
    {
      this.n := n;
      this.math := math;
      value := 0.0;
      coeff := 0.0;
      this.cutoff := cutoff;
      sampleRate := DEFAULT_SR;
      new;
      SetCutoff(cutoff);
    }

    method SetCutoff(cutoff: real)
      requires sampleRate != 0.0
      modifies this`cutoff, this`coeff
      ensures this.cutoff == cutoff && coeff == PoleCoeff(math, sampleRate, cutoff)
    {
      this.cutoff := cutoff;
      coeff := PoleCoeff(math, sampleRate, cutoff);
    }

    method Set(setting: real)
      requires Valid()
      modifies this`cutoff, this`coeff
      ensures Valid() && cutoff == setting
    {
      SetCutoff(setting);
    }

    method Reset()
      modifies this`value
      ensures value == 0.0
    {
      value := 0.0;
    }

    method SetSampleRate(sampleRate: real)
      requires Valid() && sampleRate != 0.0
      modifies this`sampleRate, this`cutoff, this`coeff
      ensures Valid() && this.sampleRate == sampleRate && cutoff == old(cutoff)
    {
      this.sampleRate := sampleRate;
      SetCutoff(cutoff);
    }

    method Tick(input: seq<real>) returns (y: real)
      requires Valid() && |input| == n
      modifies this`value, this`cutoff, this`coeff
      ensures Valid()
      ensures n == 2 ==> cutoff == input[1]
      ensures n == 1 || input[1] == old(cutoff) ==> cutoff == old(cutoff) && coeff == old(coeff)
      ensures value == LowpoleStep(coeff, old(value), input[0]) && y == value
    {
      if n > 1 {
        var c := input[1];
        if c != cutoff {
          SetCutoff(c);
        }
      }
      var x := input[0];
      value := (1.0 - coeff) * x + coeff * value;
      y := value;
    }
  }

  /** The DC blocker's pole `1 - 2 pi cutoff / sampleRate`. */
  function DCBlockCoeff(sampleRate: real, cutoff: real): real
    requires sampleRate != 0.0
  {
    1.0 - TAU / sampleRate * cutoff
  }

  /** The cutoff can be read back from the DC blocker's pole. */
  lemma DCBlockCutoffRoundTrip(sampleRate: real, cutoff: real)
    requires sampleRate != 0.0
    ensures (1.0 - DCBlockCoeff(sampleRate, cutoff)) * sampleRate / TAU == cutoff
  {
    assert TAU / sampleRate * cutoff * sampleRate == TAU * cutoff;
  }

  /** For a cutoff between 0 and `sampleRate / 2 pi` the DC blocker's pole
      lies strictly inside `(0, 1)`. */
  lemma DCBlockCoeffRange(sampleRate: real, cutoff: real)
    requires sampleRate > 0.0 && 0.0 < cutoff && TAU * cutoff < sampleRate
    ensures 0.0 < DCBlockCoeff(sampleRate, cutoff) < 1.0
  {
    assert TAU / sampleRate * cutoff == TAU * cutoff / sampleRate;
  }

  /** The DC blocker recurrence: a differentiator followed by a leaky
      integrator with pole `coeff`. */
  function DCBlockStep(coeff: real, x1: real, y1: real, x: real): (y0: real)
    ensures y0 - coeff * y1 == x - x1
  {
    x - x1 + coeff * y1
  }

  /** The output after `k` more samples of the constant input `x`, starting
      once the previous input is already `x`. */
  function DCBlockHold(coeff: real, y1: real, x: real, k: nat): real
  {
    if k == 0 then y1 else DCBlockStep(coeff, x, DCBlockHold(coeff, y1, x, k - 1), x)
  }

  /** Under a constant input the output is scaled by `coeff^k` after `k`
      steps. */
  lemma {:induction false} DCBlockRejectsConstant(coeff: real, y1: real, x: real, k: nat)
    ensures DCBlockHold(coeff, y1, x, k) == Power(coeff, k) * y1
  {
    if k > 0 {
      DCBlockRejectsConstant(coeff, y1, x, k - 1);
    }
  }

  /** With a pole in `[0, 1)` (as `DCBlockCoeffRange` gives) a constant input
      is blocked: after `k` steps the output is at most `|y1| / (1 + k (1 - coeff))`. */
  lemma DCBlockDecays(coeff: real, y1: real, x: real, k: nat)
    requires 0.0 <= coeff < 1.0
    ensures ShrunkBy(DCBlockHold(coeff, y1, x, k), y1, Spread(coeff, k))
  {
    DCBlockRejectsConstant(coeff, y1, x, k);
    GeometricBound(coeff, k, y1, DCBlockHold(coeff, y1, x, k));
  }

  /** DC blocking filter. */
  class DCBlock {
    var x1: real
    var y1: real
    var cutoff: real
    var coeff: real
    var sampleRate: real

    ghost predicate Valid()
      reads this
    {
      sampleRate != 0.0 && coeff == DCBlockCoeff(sampleRate, cutoff)
    }

    constructor (cutoff: real)
      ensures Valid() && x1 == 0.0 && y1 == 0.0
      ensures this.cutoff == cutoff && sampleRate == DEFAULT_SR
    {
      x1, y1 := 0.0, 0.0;
      this.cutoff := cutoff;
      coeff := 0.0;
      sampleRate := 0.0;
      new;
      Reset();
      sampleRate := DEFAULT_SR;
      SetCutoff(this.cutoff);
    }

    method SetCutoff(cutoff: real)
      requires sampleRate != 0.0
      modifies this`cutoff, this`coeff
      ensures this.cutoff == cutoff && coeff == DCBlockCoeff(sampleRate, cutoff)
    {
      this.cutoff := cutoff;
      coeff := DCBlockCoeff(sampleRate, cutoff);
    }

    method Set(setting: real)
      requires Valid()
      modifies this`cutoff, this`coeff
      ensures Valid() && cutoff == setting
    {
      SetCutoff(setting);
    }

    method Reset()
      modifies this`x1, this`y1
      ensures x1 == 0.0 && y1 == 0.0
    {
      x1, y1 := 0.0, 0.0;
    }

    method SetSampleRate(sampleRate: real)
      requires Valid() && sampleRate != 0.0
      modifies this`sampleRate, this`cutoff, this`coeff
      ensures Valid() && this.sampleRate == sampleRate && cutoff == old(cutoff)
    {
      this.sampleRate := sampleRate;
      SetCutoff(cutoff);
    }

    method Tick(x: real) returns (y0: real)
      modifies this`x1, this`y1
      ensures y0 == DCBlockStep(coeff, old(x1), old(y1), x)
      ensures x1 == x && y1 == y0
    {
      y0 := x - x1 + coeff * y1;
      x1 := x;
      y1 := y0;
    }
  }

  // ----- Pinking filter -----

  /** The seven state variables of the pinking filter. */
  datatype PinkState = PinkState(b0: real, b1: real, b2: real, b3: real, b4: real, b5: real, b6: real)

  const PinkRest: PinkState := PinkState(0.0, 0.0, 0.0, 0.0, 0.0, 0.0, 0.0)

  /** The state after one input sample. */
  function PinkNext(s: PinkState, x: real): PinkState
  {
    PinkState(
      0.99886 * s.b0 + x * 0.0555179,
      0.99332 * s.b1 + x * 0.0750759,
      0.96900 * s.b2 + x * 0.1538520,
      0.86650 * s.b3 + x * 0.3104856,
      0.55000 * s.b4 + x * 0.5329522,
      -0.7616 * s.b5 - x * 0.0168980,
      x * 0.115926)
  }

  /** The output for one input sample: the updated poles, the previous
      one-sample delay term and a direct term, scaled. */
  function PinkOutput(s: PinkState, x: real): real
  {
    var t := PinkNext(s, x);
    (t.b0 + t.b1 + t.b2 + t.b3 + t.b4 + t.b5 + s.b6 + x * 0.5362) * 0.115830421
  }

  /** The state a constant input `x` holds the filter in. */
  function PinkSteady(x: real): PinkState
  {
    PinkState(
      x * 0.0555179 / 0.00114,
      x * 0.0750759 / 0.00668,
      x * 0.1538520 / 0.031,
      x * 0.3104856 / 0.1335,
      x * 0.5329522 / 0.45,
      -(x * 0.0168980) / 1.7616,
      x * 0.115926)
  }

  /** The gain of the pinking filter at DC. */
  const PINK_DC_GAIN: real :=
    (0.0555179 / 0.00114 + 0.0750759 / 0.00668 + 0.1538520 / 0.031 + 0.3104856 / 0.1335
     + 0.5329522 / 0.45 - 0.0168980 / 1.7616 + 0.115926 + 0.5362) * 0.115830421

  /** `PinkSteady(x)` is a fixed point of the filter under input `x`, and
      there the output is `PINK_DC_GAIN * x`. */
  lemma PinkSteadyState(x: real)
    ensures PinkNext(PinkSteady(x), x) == PinkSteady(x)
    ensures PinkOutput(PinkSteady(x), x) == PINK_DC_GAIN * x
  {
    var s := PinkSteady(x);
    assert 0.99886 * s.b0 + x * 0.0555179 == s.b0;
    assert 0.99332 * s.b1 + x * 0.0750759 == s.b1;
    assert 0.96900 * s.b2 + x * 0.1538520 == s.b2;
    assert 0.86650 * s.b3 + x * 0.3104856 == s.b3;
    assert 0.55000 * s.b4 + x * 0.5329522 == s.b4;
    assert -0.7616 * s.b5 - x * 0.0168980 == s.b5;
  }

  /** Pinking filter (3 dB per octave lowpass). */
  class Pinkpass {
    var b0: real
    var b1: real
    var b2: real
    var b3: real
    var b4: real
    var b5: real
    var b6: real
    var sampleRate: real

    function State(): PinkState
      reads this
    {
      PinkState(b0, b1, b2, b3, b4, b5, b6)
    }

    constructor ()
      ensures State() == PinkRest && sampleRate == DEFAULT_SR
    {
      b0, b1, b2, b3, b4, b5, b6 := 0.0, 0.0, 0.0, 0.0, 0.0, 0.0, 0.0;
      sampleRate := DEFAULT_SR;
    }

    method Reset()
      modifies this`b0, this`b1, this`b2, this`b3, this`b4, this`b5, this`b6
      ensures State() == PinkRest
    {
      b0, b1, b2, b3, b4, b5, b6 := 0.0, 0.0, 0.0, 0.0, 0.0, 0.0, 0.0;
    }

    method SetSampleRate(sampleRate: real)
      modifies this`sampleRate
      ensures this.sampleRate == sampleRate
    {
      this.sampleRate := sampleRate;
    }

    method Tick(x: real) returns (out: real)
      modifies this`b0, this`b1, this`b2, this`b3, this`b4, this`b5, this`b6
      ensures State() == PinkNext(old(State()), x)
      ensures out == PinkOutput(old(State()), x)
    {
      b0 := 0.99886 * b0 + x * 0.0555179;
      b1 := 0.99332 * b1 + x * 0.0750759;
      b2 := 0.96900 * b2 + x * 0.1538520;
      b3 := 0.86650 * b3 + x * 0.3104856;
      b4 := 0.55000 * b4 + x * 0.5329522;
      b5 := -0.7616 * b5 - x * 0.0168980;
      out := (b0 + b1 + b2 + b3 + b4 + b5 + b6 + x * 0.5362) * 0.115830421;
      b6 := x * 0.115926;
    }
  }

  // ----- First-order allpass -----

  /** The allpass coefficient for a delay of `d` samples. */
  function EtaOf(d: real): real
    requires d != -1.0
  {
    (1.0 - d) / (1.0 + d)
  }

  /** A positive delay gives a coefficient strictly inside `(-1, 1)`. */
  lemma EtaRange(d: real)
    requires d > 0.0
    ensures -1.0 < EtaOf(d) < 1.0
  {
    var e := EtaOf(d);
    QuotientPositive(2.0 * d, 1.0 + d);
    QuotientPositive(2.0, 1.0 + d);
    assert 1.0 - e == 2.0 * d / (1.0 + d);
    assert 1.0 + e == 2.0 / (1.0 + d);
  }

  /** The delay is recovered from the coefficient by the same formula. */
  lemma EtaInvolution(d: real)
    requires d != -1.0
    ensures EtaOf(d) != -1.0 && EtaOf(EtaOf(d)) == d
  {
    var e := EtaOf(d);
    assert e * (1.0 + d) == 1.0 - d;
    assert (1.0 + e) * (1.0 + d) == 2.0;
    assert (1.0 - e) * (1.0 + d) == 2.0 * d;
  }

  /** The allpass recurrence. */
  function AllpoleStep(eta: real, x1: real, y1: real, x0: real): real
  {
    eta * (x0 - y1) + x1
  }

  /** The single internal state of the allpass in canonical form. */
  function AllpoleInner(eta: real, x1: real, y1: real): real
  {
    x1 - eta * y1
  }

  function Sq(x: real): real
  {
    x * x
  }

  /** `(1 - eta^2) d`: the factor by which the allpass scales the energy it
      moves between the signal and its state. */
  function Damping(eta: real, d: real): real
  {
    (1.0 - eta * eta) * d
  }

  /** The allpass is lossless: one step changes the energy of the internal
      state by exactly `1 - eta^2` times the energy removed from the signal. */
  lemma AllpoleLossless(eta: real, x1: real, y1: real, x0: real)
    ensures var y0 := AllpoleStep(eta, x1, y1, x0);
      Damping(eta, Sq(x0) - Sq(y0)) == Sq(AllpoleInner(eta, x0, y0)) - Sq(AllpoleInner(eta, x1, y1))
  {
    var w := AllpoleInner(eta, x1, y1);
    var y0 := AllpoleStep(eta, x1, y1, x0);
    assert y0 == eta * x0 + w;
    var w1 := AllpoleInner(eta, x0, y0);
    assert w1 == (1.0 - eta * eta) * x0 - eta * w;
    assert w1 * w1 - w * w == (1.0 - eta * eta) * ((1.0 - eta * eta) * x0 * x0 - 2.0 * eta * x0 * w - w * w);
    assert x0 * x0 - y0 * y0 == (1.0 - eta * eta) * x0 * x0 - 2.0 * eta * x0 * w - w * w;
  }

  /** The outputs of an allpass with fixed coefficient started at `(x1, y1)`. */
  function AllpoleRun(eta: real, x1: real, y1: real, xs: seq<real>): (ys: seq<real>)
    ensures |ys| == |xs|
    decreases |xs|
  {
    if xs == [] then []
    else
      var y0 := AllpoleStep(eta, x1, y1, xs[0]);
      [y0] + AllpoleRun(eta, xs[0], y0, xs[1..])
  }

  /** The internal state after the run. */
  function AllpoleFinal(eta: real, x1: real, y1: real, xs: seq<real>): real
    decreases |xs|
  {
    if xs == [] then AllpoleInner(eta, x1, y1)
    else AllpoleFinal(eta, xs[0], AllpoleStep(eta, x1, y1, xs[0]), xs[1..])
  }

  /** The sum of squares of a signal. */
  function Energy(xs: seq<real>): real
    decreases |xs|
  {
    if xs == [] then 0.0 else Sq(xs[0]) + Energy(xs[1..])
  }

  lemma DampingAdditive(eta: real, d: real, e: real)
    ensures Damping(eta, d + e) == Damping(eta, d) + Damping(eta, e)
  {
  }

  /** Energy balance over a whole run. */
  lemma {:induction false} AllpoleEnergyBalance(eta: real, x1: real, y1: real, xs: seq<real>)
    ensures Damping(eta, Energy(xs) - Energy(AllpoleRun(eta, x1, y1, xs))) ==
      Sq(AllpoleFinal(eta, x1, y1, xs)) - Sq(AllpoleInner(eta, x1, y1))
    decreases |xs|
  {
    if xs != [] {
      var x0 := xs[0];
      var y0 := AllpoleStep(eta, x1, y1, x0);
      var ys := AllpoleRun(eta, x1, y1, xs);
      var ex, ey := Energy(xs[1..]), Energy(AllpoleRun(eta, x0, y0, xs[1..]));
      AllpoleLossless(eta, x1, y1, x0);
      AllpoleEnergyBalance(eta, x0, y0, xs[1..]);
      assert ys[0] == y0 && ys[1..] == AllpoleRun(eta, x0, y0, xs[1..]);
      assert Energy(xs) - Energy(ys) == (Sq(x0) - Sq(y0)) + (ex - ey);
      DampingAdditive(eta, Sq(x0) - Sq(y0), ex - ey);
    }
  }

  lemma NonnegativeFactor(k: real, d: real)
    requires k > 0.0 && k * d >= 0.0
    ensures d >= 0.0
  {
  }

  /** For `|eta| < 1` damping keeps the sign of what it scales. */
  lemma DampingSign(eta: real, d: real)
    requires -1.0 < eta < 1.0 && Damping(eta, d) >= 0.0
    ensures d >= 0.0
  {
    var k := 1.0 - eta * eta;
    assert k > 0.0 by {
      assert eta * eta < 1.0 by {
        if eta >= 0.0 {
          assert eta * eta <= eta * 1.0;
        } else {
          assert eta * eta <= eta * (-1.0);
        }
      }
    }
    NonnegativeFactor(k, d);
  }

  lemma SqNonnegative(x: real)
    ensures Sq(x) >= 0.0
  {
    if x < 0.0 {
      assert Sq(x) == (-x) * (-x);
    }
  }

  /** From rest, an allpass with `|eta| < 1` never outputs more energy than
      it receives. */
  lemma AllpoleNoGain(eta: real, xs: seq<real>)
    requires -1.0 < eta < 1.0
    ensures Energy(AllpoleRun(eta, 0.0, 0.0, xs)) <= Energy(xs)
  {
    AllpoleEnergyBalance(eta, 0.0, 0.0, xs);
    assert AllpoleInner(eta, 0.0, 0.0) == 0.0;
    SqNonnegative(AllpoleFinal(eta, 0.0, 0.0, xs));
    DampingSign(eta, Energy(xs) - Energy(AllpoleRun(eta, 0.0, 0.0, xs)));
  }

  /** First-order allpass. `n` is 1, or 2 when input 1 modulates the delay. */
  class Allpole {
    const n: nat
    var eta: real
    var x1: real
    var y1: real
    var sampleRate: real

    constructor (n: nat, delay: real)
      requires n == 1 || n == 2
      requires delay > 0.0
      ensures this.n == n && eta == EtaOf(delay) && -1.0 < eta < 1.0
      ensures x1 == 0.0 && y1 == 0.0 && sampleRate == DEFAULT_SR
    {
      this.n := n;
      eta := 0.0;
      x1, y1 := 0.0, 0.0;
      sampleRate := DEFAULT_SR;
      new;
      SetDelay(delay);
      EtaRange(delay);
    }

    method SetDelay(delay: real)
      requires delay != -1.0
      modifies this`eta
      ensures eta == EtaOf(delay)
    {
      eta := (1.0 - delay) / (1.0 + delay);
    }

    method Set(setting: real)
      requires setting != -1.0
      modifies this`eta
      ensures eta == EtaOf(setting)
    {
      SetDelay(setting);
    }

    method Reset()
      modifies this`x1, this`y1
      ensures x1 == 0.0 && y1 == 0.0
    {
      x1, y1 := 0.0, 0.0;
    }

    method SetSampleRate(sampleRate: real)
      modifies this`sampleRate
      ensures this.sampleRate == sampleRate
    {
      this.sampleRate := sampleRate;
    }

    /** With two inputs the delay is installed on every sample. */
    method Tick(input: seq<real>) returns (y0: real)
      requires (n == 1 || n == 2) && |input| == n && (n > 1 ==> input[1] != -1.0)
      modifies this`eta, this`x1, this`y1
      ensures n > 1 ==> eta == EtaOf(input[1])
      ensures n <= 1 ==> eta == old(eta)
      ensures y0 == AllpoleStep(eta, old(x1), old(y1), input[0])
      ensures x1 == input[0] && y1 == y0
    {
      if n > 1 {
        SetDelay(input[1]);
      }
      var x0 := input[0];
      y0 := eta * (x0 - y1) + x1;
      x1 := x0;
      y1 := y0;
    }
  }

  // ----- One-pole, one-zero highpass -----

  /** The highpass recurrence: a differentiator scaled by the pole. */
  function HighpoleStep(coeff: real, x1: real, y1: real, x0: real): (y0: real)
    ensures y0 == coeff * y1 + coeff * (x0 - x1)
  {
    coeff * (y1 + x0 - x1)
  }

  /** The output after `k` more samples of the constant input `x`, starting
      once the previous input is already `x`. */
  function HighpoleHold(coeff: real, y1: real, x: real, k: nat): real
  {
    if k == 0 then y1 else HighpoleStep(coeff, x, HighpoleHold(coeff, y1, x, k - 1), x)
  }

  /** Under a constant input the output is scaled by `coeff^k` after `k`
      steps. */
  lemma {:induction false} HighpoleRejectsConstant(coeff: real, y1: real, x: real, k: nat)
    ensures HighpoleHold(coeff, y1, x, k) == Power(coeff, k) * y1
  {
    if k > 0 {
      HighpoleRejectsConstant(coeff, y1, x, k - 1);
      assert coeff * (Power(coeff, k - 1) * y1) == (coeff * Power(coeff, k - 1)) * y1;
    }
  }

  /** With a coefficient in `[0, 1)` (as `PoleCoeffRange` gives) a constant
      input is blocked: after `k` steps the output is at most
      `|y1| / (1 + k (1 - coeff))`. */
  lemma HighpoleDecays(coeff: real, y1: real, x: real, k: nat)
    requires 0.0 <= coeff < 1.0
    ensures ShrunkBy(HighpoleHold(coeff, y1, x, k), y1, Spread(coeff, k))
  {
    HighpoleRejectsConstant(coeff, y1, x, k);
    GeometricBound(coeff, k, y1, HighpoleHold(coeff, y1, x, k));
  }

  /** One-pole, one-zero highpass. `n` is 1, or 2 when input 1 modulates
      the cutoff. */
  class Highpole {
    const n: nat
    const math: Math
    var x1: real
    var y1: real
    var coeff: real
    var cutoff: real
    var sampleRate: real

    ghost predicate Valid()
      reads this
    {
      (n == 1 || n == 2) && sampleRate != 0.0 && coeff == PoleCoeff(math, sampleRate, cutoff)
    }

    constructor (n: nat, math: Math, cutoff: real)
      requires n == 1 || n == 2
      ensures Valid() && this.n == n && this.math == math
      ensures x1 == 0.0 && y1 == 0.0 && this.cutoff == cutoff && sampleRate == DEFAULT_SR
    {
      this.n := n;
      this.math := math;
      x1, y1 := 0.0, 0.0;
      coeff := 0.0;
      this.cutoff := cutoff;
      sampleRate := DEFAULT_SR;
      new;
      SetCutoff(cutoff);
    }

    method SetCutoff(cutoff: real)
      requires sampleRate != 0.0
      modifies this`cutoff, this`coeff
      ensures this.cutoff == cutoff && coeff == PoleCoeff(math, sampleRate, cutoff)
    {
      this.cutoff := cutoff;
      coeff := PoleCoeff(math, sampleRate, cutoff);
    }

    method Set(setting: real)
      requires Valid()
      modifies this`cutoff, this`coeff
      ensures Valid() && cutoff == setting
    {
      SetCutoff(setting);
    }

    method Reset()
      modifies this`x1, this`y1
      ensures x1 == 0.0 && y1 == 0.0
    {
      x1, y1 := 0.0, 0.0;
    }

    method SetSampleRate(sampleRate: real)
      requires Valid() && sampleRate != 0.0
      modifies this`sampleRate, this`cutoff, this`coeff
      ensures Valid() && this.sampleRate == sampleRate && cutoff == old(cutoff)
    {
      this.sampleRate := sampleRate;
      SetCutoff(cutoff);
    }

    method Tick(input: seq<real>) returns (y0: real)
      requires Valid() && |input| == n
      modifies this`x1, this`y1, this`cutoff, this`coeff
      ensures Valid()
      ensures n == 2 ==> cutoff == input[1]
      ensures n == 1 || input[1] == old(cutoff) ==> cutoff == old(cutoff) && coeff == old(coeff)
      ensures y0 == HighpoleStep(coeff, old(x1), old(y1), input[0])
      ensures x1 == input[0] && y1 == y0
    {
      if n > 1 {
        var c := input[1];
        if c != cutoff {
          SetCutoff(c);
        }
      }
      var x0 := input[0];
      y0 := coeff * (y1 + x0 - x1);
      x1 := x0;
      y1 := y0;
    }
  }
}
