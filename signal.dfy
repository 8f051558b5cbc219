/**
 * Signals and their modulation: a signal has a frequency, an amplitude
 * and a phase offset, and three lists of modulators (frequency, amplitude,
 * phase). Each getter starts from the signal's own value, adds every
 * modulator's output weighted by its amount, divides by the number of
 * modulators and clamps to the destination's range. The concrete signals
 * (sine, triangle, saw, square) compose these arrays into samples.
 *
 * A modulator points at another signal; here it names it by `source`, and
 * what that signal evaluates to at the time stamps is the function
 * `evalMod`, supplied by the caller. `cos`, `semiToFreq` and `freqToSemi`
 * are likewise supplied, in a `Numerics` value.
 */
module Signals {
  import opened MathUtil
  import opened WaveFile

  /** `M_PI * 2` as a double. */
  const PI2: real := 6.283185307179586

  /** The range `getFreq` clamps to, in hertz. */
  const MIN_FREQ: real := 20.0
  const MAX_FREQ: real := 20000.0

  /** Semitones of frequency modulation at full amount. */
  const FREQ_SCALE: real := 12.0

  /** A modulator: the signal doing the modulating and how much of it to apply. */
  datatype Modulator = Modulator(source: nat, amount: real)

  /** The three modulation destinations, numbered as `addMod` numbers them. */
  const FREQUENCY: int := 0
  const AMPLITUDE: int := 1
  const PHASE: int := 2

  /** Which `evaluate` a signal has: the base class's, or one of the four waveforms. */
  datatype Shape = Plain | Sine | Triangle | Saw | Square

  /** The transcendental functions the signals use, left uninterpreted. */
  datatype Numerics = Numerics(cos: real -> real, semiToFreq: real -> real, freqToSemi: real -> real)

  /** The two `std::invalid_argument`s `addMod` throws. */
  datatype ModError = DestinationOutOfRange | AmountOutOfRange

  datatype Outcome = Added | Rejected(error: ModError)

  /** Every modulating signal evaluates to one value per time stamp. */
  ghost predicate PreservesLength(evalMod: (nat, seq<real>) -> seq<real>)
  {
    forall src: nat, ts: seq<real> :: |evalMod(src, ts)| == |ts|
  }

  /** `mod.signal->evaluate(ts)[i] * (mod.amount * scale)`. */
  function ModTerm(m: Modulator, evalMod: (nat, seq<real>) -> seq<real>, ts: seq<real>, scale: real, i: int): real
    requires PreservesLength(evalMod) && 0 <= i < |ts|
  {
    evalMod(m.source, ts)[i] * (m.amount * scale)
  }

  /** The weighted modulator outputs at time stamp i, summed in list order. */
  function ModSum(mods: seq<Modulator>, evalMod: (nat, seq<real>) -> seq<real>, ts: seq<real>, scale: real, i: int): real
    requires PreservesLength(evalMod) && 0 <= i < |ts|
    decreases |mods|
  {
    if mods == [] then 0.0
    else ModSum(mods[..|mods| - 1], evalMod, ts, scale, i) + ModTerm(mods[|mods| - 1], evalMod, ts, scale, i)
  }

  /**
   * The array a getter returns: `base` everywhere when there are no
   * modulators; otherwise, at each time stamp, `start` plus the weighted
   * modulator outputs, over their number, converted and clamped to [lo, hi].
   */
  function Modulated(base: real, start: real, mods: seq<Modulator>, evalMod: (nat, seq<real>) -> seq<real>,
                     ts: seq<real>, scale: real, convert: real -> real, lo: real, hi: real): (r: seq<real>)
    requires PreservesLength(evalMod)
    ensures |r| == |ts|
    ensures mods == [] ==> forall i :: 0 <= i < |ts| ==> r[i] == base
    ensures mods != [] && lo <= hi ==> forall i :: 0 <= i < |ts| ==> lo <= r[i] <= hi
  {
    if mods == [] then seq(|ts|, _ => base)
    else
      var n := |mods| as real;
      seq(|ts|, i requires 0 <= i < |ts| => Clamp(convert((start + ModSum(mods, evalMod, ts, scale, i)) / n), lo, hi))
  }

  /** The shared accumulation loop of the getters: `buf += mod.signal->evaluate(ts) * (mod.amount * scale)`. */
  method Accumulate(start: seq<real>, mods: seq<Modulator>, evalMod: (nat, seq<real>) -> seq<real>,
                    ts: seq<real>, scale: real) returns (buf: seq<real>)
    requires PreservesLength(evalMod) && |start| == |ts|
    ensures |buf| == |ts|
    ensures forall i :: 0 <= i < |ts| ==> buf[i] == start[i] + ModSum(mods, evalMod, ts, scale, i)
  {
    buf := start;
    for k := 0 to |mods|
      invariant |buf| == |ts|
      invariant forall i :: 0 <= i < |ts| ==> buf[i] == start[i] + ModSum(mods[..k], evalMod, ts, scale, i)
    {
      var out := evalMod(mods[k].source, ts);
      var w := mods[k].amount * scale;
      buf := seq(|ts|, i requires 0 <= i < |ts| => buf[i] + out[i] * w);
      assert mods[..k + 1][..k] == mods[..k];
    }
    assert mods[..|mods|] == mods;
  }

  /** Modulators whose amounts are all zero add nothing. */
  lemma {:induction false} SilentModSum(mods: seq<Modulator>, evalMod: (nat, seq<real>) -> seq<real>,
                                        ts: seq<real>, scale: real, i: int)
    requires PreservesLength(evalMod) && 0 <= i < |ts|
    requires forall k :: 0 <= k < |mods| ==> mods[k].amount == 0.0
    ensures ModSum(mods, evalMod, ts, scale, i) == 0.0
  {
    if mods != [] {
      SilentModSum(mods[..|mods| - 1], evalMod, ts, scale, i);
    }
  }

  /**
   * n modulators at amount zero do not leave the value alone: the start
   * value is divided by n before conversion and clamping.
   */
  lemma SilentModulatorsDivide(base: real, start: real, mods: seq<Modulator>, evalMod: (nat, seq<real>) -> seq<real>,
                               ts: seq<real>, scale: real, convert: real -> real, lo: real, hi: real, i: int)
    requires PreservesLength(evalMod) && 0 <= i < |ts| && mods != []
    requires forall k :: 0 <= k < |mods| ==> mods[k].amount == 0.0
    ensures Modulated(base, start, mods, evalMod, ts, scale, convert, lo, hi)[i]
            == Clamp(convert(start / |mods| as real), lo, hi)
  {
    SilentModSum(mods, evalMod, ts, scale, i);
  }

  /** One weighted output is at most m times the scale when the output is at most m and the amount at most 1. */
  lemma TermBound(x: real, a: real, s: real, m: real)
    requires Abs(x) <= m && 0.0 <= a <= 1.0 && s >= 0.0
    ensures Abs(x * (a * s)) <= m * s
  {
    AbsMul(x, a * s);
    assert 0.0 <= a * s;
    MulMono(s, a, 1.0);
    assert Abs(a * s) == a * s;
    MulMono(a * s, Abs(x), m);
    assert Abs(x) * (a * s) <= m * (a * s);
    MulMono(m, a * s, s);
  }

  /** n copies of c added up. */
  function Times(n: nat, c: real): (r: real)
    ensures r == n as real * c
  {
    if n == 0 then 0.0 else Times(n - 1, c) + c
  }

  /** n weighted outputs, each at most c in magnitude, sum to at most n times c in magnitude. */
  lemma {:induction false} ModSumWithin(mods: seq<Modulator>, evalMod: (nat, seq<real>) -> seq<real>,
                                        ts: seq<real>, scale: real, i: int, c: real)
    requires PreservesLength(evalMod) && 0 <= i < |ts|
    requires forall k :: 0 <= k < |mods| ==> Abs(ModTerm(mods[k], evalMod, ts, scale, i)) <= c
    ensures Abs(ModSum(mods, evalMod, ts, scale, i)) <= Times(|mods|, c)
  {
    if mods != [] {
      var n := |mods|;
      var prefix, last := mods[..n - 1], mods[n - 1];
      ModSumWithin(prefix, evalMod, ts, scale, i, c);
    }
  }

  /** With outputs bounded by m and amounts in [0, 1], the sum of n weighted outputs is at most n times m times the scale. */
  lemma ModSumBound(mods: seq<Modulator>, evalMod: (nat, seq<real>) -> seq<real>,
                    ts: seq<real>, scale: real, i: int, m: real)
    requires PreservesLength(evalMod) && 0 <= i < |ts| && scale >= 0.0
    requires forall k :: 0 <= k < |mods| ==> 0.0 <= mods[k].amount <= 1.0
    requires forall k :: 0 <= k < |mods| ==> Abs(evalMod(mods[k].source, ts)[i]) <= m
    ensures Abs(ModSum(mods, evalMod, ts, scale, i)) <= Times(|mods|, m * scale)
  {
    TermsBound(mods, evalMod, ts, scale, i, m);
    ModSumWithin(mods, evalMod, ts, scale, i, m * scale);
  }

  lemma TermsBound(mods: seq<Modulator>, evalMod: (nat, seq<real>) -> seq<real>,
                   ts: seq<real>, scale: real, i: int, m: real)
    requires PreservesLength(evalMod) && 0 <= i < |ts| && scale >= 0.0
    requires forall k :: 0 <= k < |mods| ==> 0.0 <= mods[k].amount <= 1.0
    requires forall k :: 0 <= k < |mods| ==> Abs(evalMod(mods[k].source, ts)[i]) <= m
    ensures forall k :: 0 <= k < |mods| ==> Abs(ModTerm(mods[k], evalMod, ts, scale, i)) <= m * scale
  {
    forall k | 0 <= k < |mods| ensures Abs(ModTerm(mods[k], evalMod, ts, scale, i)) <= m * scale {
      TermBound(evalMod(mods[k].source, ts)[i], mods[k].amount, scale, m);
    }
  }

  /** The fractional part of each element. */
  function Fractions(c: seq<real>): (r: seq<real>)
    ensures |r| == |c|
    ensures forall i :: 0 <= i < |c| ==> -1.0 < r[i] < 1.0 && (c[i] >= 0.0 ==> r[i] >= 0.0)
  {
    seq(|c|, i requires 0 <= i < |c| => Fractional(c[i]))
  }

  /** `getFreq(ts) * ts + getPhase(ts) / PI2`: elapsed cycles at each time stamp. */
  function Cycles(f: seq<real>, p: seq<real>, ts: seq<real>): (r: seq<real>)
    requires |f| == |ts| && |p| == |ts|
    ensures |r| == |ts|
  {
    seq(|ts|, i requires 0 <= i < |ts| => f[i] * ts[i] + p[i] / PI2)
  }

  /** `abs(frac - 0.5)`: the triangle before bias removal and normalisation. */
  function TriangleRaw(frac: seq<real>): (r: seq<real>)
    ensures |r| == |frac|
  {
    seq(|frac|, i requires 0 <= i < |frac| => Abs(frac[i] - 0.5))
  }

  /** `PI2 * getFreq(ts) * ts + getPhase(ts)`: the sine's phase at each time stamp. */
  function SinePhases(f: seq<real>, p: seq<real>, ts: seq<real>): (r: seq<real>)
    requires |f| == |ts| && |p| == |ts|
    ensures |r| == |ts|
  {
    seq(|ts|, i requires 0 <= i < |ts| => PI2 * f[i] * ts[i] + p[i])
  }

  /** `Sine::evaluate`: the amplitude times the cosine of the phase. */
  function SineWave(a: seq<real>, f: seq<real>, p: seq<real>, ts: seq<real>, cos: real -> real): (r: seq<real>)
    requires |a| == |ts| && |f| == |ts| && |p| == |ts|
    ensures |r| == |ts|
  {
    var phases := SinePhases(f, p, ts);
    seq(|ts|, i requires 0 <= i < |ts| => a[i] * cos(phases[i]))
  }

  /** `Square::evaluate`: the amplitude times the sign of the unbiased fractional cycles. */
  function SquareWave(a: seq<real>, f: seq<real>, p: seq<real>, ts: seq<real>): (r: seq<real>)
    requires |a| == |ts| && |f| == |ts| && |p| == |ts| && |ts| > 0
    ensures |r| == |ts|
    ensures forall i :: 0 <= i < |ts| ==> r[i] == -a[i] || r[i] == 0.0 || r[i] == a[i]
  {
    var u := Unbias(Fractions(Cycles(f, p, ts)));
    seq(|ts|, i requires 0 <= i < |ts| => a[i] * Sign(u[i]))
  }

  /** `n * getAmp(ts)`: the elementwise product of a shape with the amplitudes. */
  function Amplify(n: seq<real>, a: seq<real>): (r: seq<real>)
    requires |n| == |a|
    ensures |r| == |a|
  {
    seq(|a|, i requires 0 <= i < |a| => n[i] * a[i])
  }

  /** The saw is defined when the unbiased fractional cycles are not all zero (`normalize` divides by their peak). */
  predicate SawDefined(f: seq<real>, p: seq<real>, ts: seq<real>)
    requires |f| == |ts| && |p| == |ts|
  {
    |ts| > 0 && HasNonZero(Unbias(Fractions(Cycles(f, p, ts))))
  }

  /** `Saw::evaluate`: the unbiased fractional cycles, normalised to 1, times the amplitude. */
  function SawWave(a: seq<real>, f: seq<real>, p: seq<real>, ts: seq<real>): (r: seq<real>)
    requires |a| == |ts| && |f| == |ts| && |p| == |ts| && SawDefined(f, p, ts)
    ensures |r| == |ts|
  {
    Amplify(Normalize(Unbias(Fractions(Cycles(f, p, ts))), 1.0), a)
  }

  predicate TriangleDefined(f: seq<real>, p: seq<real>, ts: seq<real>)
    requires |f| == |ts| && |p| == |ts|
  {
    |ts| > 0 && HasNonZero(Unbias(TriangleRaw(Fractions(Cycles(f, p, ts)))))
  }

  /** `Triangle::evaluate`: `abs(frac - 0.5)`, unbiased and normalised to 1, times the amplitude. */
  function TriangleWave(a: seq<real>, f: seq<real>, p: seq<real>, ts: seq<real>): (r: seq<real>)
    requires |a| == |ts| && |f| == |ts| && |p| == |ts| && TriangleDefined(f, p, ts)
    ensures |r| == |ts|
  {
    Amplify(Normalize(Unbias(TriangleRaw(Fractions(Cycles(f, p, ts)))), 1.0), a)
  }

  /** A factor of magnitude at most 1 keeps a product within the other factor's magnitude; magnitude 1 keeps it exactly. */
  lemma WithinFactor(n: real, a: real, r: real)
    requires Abs(n) <= 1.0 && r == n * a
    ensures Abs(r) <= Abs(a)
    ensures Abs(n) == 1.0 ==> Abs(r) == Abs(a)
  {
    AbsMul(n, a);
    MulMono(Abs(a), Abs(n), 1.0);
  }

  /** Elementwise products with factors of magnitude at most 1 stay within the amplitudes; a factor of magnitude 1 meets one. */
  lemma ProductsWithin(n: seq<real>, a: seq<real>, r: seq<real>)
    requires |a| == |n| && |r| == |n|
    requires forall i :: 0 <= i < |n| ==> Abs(n[i]) <= 1.0 && r[i] == n[i] * a[i]
    requires exists j :: 0 <= j < |n| && Abs(n[j]) == 1.0
    ensures forall i :: 0 <= i < |n| ==> Abs(r[i]) <= Abs(a[i])
    ensures exists j :: 0 <= j < |n| && Abs(r[j]) == Abs(a[j])
  {
    forall i | 0 <= i < |n| ensures Abs(r[i]) <= Abs(a[i]) {
      WithinFactor(n[i], a[i], r[i]);
    }
    var j :| 0 <= j < |n| && Abs(n[j]) == 1.0;
    WithinFactor(n[j], a[j], r[j]);
  }

  /** A seq normalised to 1, times the amplitudes, stays within the amplitudes and meets one of them. */
  lemma NormalizedTimesAmplitude(u: seq<real>, a: seq<real>)
    requires HasNonZero(u) && |a| == |u|
    ensures forall i :: 0 <= i < |u| ==> Abs(Amplify(Normalize(u, 1.0), a)[i]) <= Abs(a[i])
    ensures exists j :: 0 <= j < |u| && Abs(Amplify(Normalize(u, 1.0), a)[j]) == Abs(a[j])
  {
    NormalizeReachesAmplitude(u, 1.0);
    assert Abs(1.0) == 1.0;
    ProductsWithin(Normalize(u, 1.0), a, Amplify(Normalize(u, 1.0), a));
  }

  /** No saw sample exceeds its amplitude in magnitude, and some sample reaches it. */
  lemma SawWithinAmplitude(a: seq<real>, f: seq<real>, p: seq<real>, ts: seq<real>)
    requires |a| == |ts| && |f| == |ts| && |p| == |ts| && SawDefined(f, p, ts)
    ensures forall i :: 0 <= i < |ts| ==> Abs(SawWave(a, f, p, ts)[i]) <= Abs(a[i])
    ensures exists j :: 0 <= j < |ts| && Abs(SawWave(a, f, p, ts)[j]) == Abs(a[j])
  {
    NormalizedTimesAmplitude(Unbias(Fractions(Cycles(f, p, ts))), a);
  }

  /** No triangle sample exceeds its amplitude in magnitude, and some sample reaches it. */
  lemma TriangleWithinAmplitude(a: seq<real>, f: seq<real>, p: seq<real>, ts: seq<real>)
    requires |a| == |ts| && |f| == |ts| && |p| == |ts| && TriangleDefined(f, p, ts)
    ensures forall i :: 0 <= i < |ts| ==> Abs(TriangleWave(a, f, p, ts)[i]) <= Abs(a[i])
    ensures exists j :: 0 <= j < |ts| && Abs(TriangleWave(a, f, p, ts)[j]) == Abs(a[j])
  {
    NormalizedTimesAmplitude(Unbias(TriangleRaw(Fractions(Cycles(f, p, ts)))), a);
  }

  /** With a cosine bounded by 1, no sine sample exceeds its amplitude in magnitude. */
  lemma SineWithinAmplitude(a: seq<real>, f: seq<real>, p: seq<real>, ts: seq<real>, cos: real -> real)
    requires |a| == |ts| && |f| == |ts| && |p| == |ts|
    requires forall x :: -1.0 <= cos(x) <= 1.0
    ensures forall i :: 0 <= i < |ts| ==> Abs(SineWave(a, f, p, ts, cos)[i]) <= Abs(a[i])
  {
    forall i | 0 <= i < |ts| ensures Abs(SineWave(a, f, p, ts, cos)[i]) <= Abs(a[i]) {
      var c := cos(SinePhases(f, p, ts)[i]);
      WithinFactor(c, a[i], SineWave(a, f, p, ts, cos)[i]);
    }
  }

  /** Whether a shape's `evaluate` is defined on these frequencies, phases and time stamps. */
  predicate ShapeDefined(shape: Shape, f: seq<real>, p: seq<real>, ts: seq<real>)
    requires |f| == |ts| && |p| == |ts|
  {
    match shape
    case Plain => true
    case Sine => true
    case Square => |ts| > 0
    case Saw => SawDefined(f, p, ts)
    case Triangle => TriangleDefined(f, p, ts)
  }

  /** What `evaluate` returns for each shape; the base class returns the time stamps. */
  function Shaped(shape: Shape, a: seq<real>, f: seq<real>, p: seq<real>, ts: seq<real>, cos: real -> real): (r: seq<real>)
    requires |a| == |ts| && |f| == |ts| && |p| == |ts| && ShapeDefined(shape, f, p, ts)
    ensures |r| == |ts|
  {
    match shape
    case Plain => ts
    case Sine => SineWave(a, f, p, ts, cos)
    case Square => SquareWave(a, f, p, ts)
    case Saw => SawWave(a, f, p, ts)
    case Triangle => TriangleWave(a, f, p, ts)
  }

  /** `int len = sampleRate * duration` is defined and not negative. */
  predicate TimeBaseDefined(rate: int, dur: real)
  {
    -1.0 < rate as real * dur < 2147483648.0
  }

  /** The time stamps `makeWave` builds: trunc(rate * dur) of them, the i-th being i / rate. */
  function TimeBase(rate: int, dur: real): (ts: seq<real>)
    requires TimeBaseDefined(rate, dur)
    ensures |ts| == Trunc(rate as real * dur)
    ensures forall i :: 0 <= i < |ts| ==> rate != 0 && ts[i] * rate as real == i as real
  {
    var len := Trunc(rate as real * dur);
    seq(len, i requires 0 <= i < len => i as real / rate as real)
  }

  /** At a positive rate the time stamps start at 0, are 1 / rate apart and stay below the duration. */
  lemma TimeBaseWithinDuration(rate: int, dur: real)
    requires TimeBaseDefined(rate, dur) && rate > 0
    ensures var ts := TimeBase(rate, dur);
            (|ts| > 0 ==> ts[0] == 0.0) &&
            (forall i :: 0 <= i < |ts| ==> 0.0 <= ts[i] < dur) &&
            (forall i :: 0 < i < |ts| ==> ts[i] - ts[i - 1] == 1.0 / rate as real)
  {
    var ts := TimeBase(rate, dur);
    forall i | 0 <= i < |ts| ensures 0.0 <= ts[i] < dur {
      TimeStampBelow(rate, dur, i);
    }
    forall i | 0 < i < |ts| ensures ts[i] - ts[i - 1] == 1.0 / rate as real {
      TimeStep(rate, dur, i);
    }
  }

  lemma TimeStep(rate: int, dur: real, i: int)
    requires TimeBaseDefined(rate, dur) && rate > 0 && 0 < i < |TimeBase(rate, dur)|
    ensures TimeBase(rate, dur)[i] - TimeBase(rate, dur)[i - 1] == 1.0 / rate as real
  {
    var ts := TimeBase(rate, dur);
    StepOf(ts[i], ts[i - 1], rate as real);
  }

  lemma TimeStampBelow(rate: int, dur: real, i: int)
    requires TimeBaseDefined(rate, dur) && rate > 0 && 0 <= i < |TimeBase(rate, dur)|
    ensures 0.0 <= TimeBase(rate, dur)[i] < dur
  {
    var t, r := TimeBase(rate, dur)[i], rate as real;
    assert t * r == i as real;
    assert (i as real) < r * dur;
    DivBelow(i as real, r, dur);
    assert t == i as real / r;
  }

  lemma StepOf(x: real, y: real, r: real)
    requires r > 0.0 && x * r == y * r + 1.0
    ensures x - y == 1.0 / r
  {
    assert (x - y) * r == 1.0;
  }

  lemma DivBelow(x: real, r: real, d: real)
    requires 0.0 <= x < r * d && r > 0.0
    ensures 0.0 <= x / r < d
  {
    var q := x / r;
    assert q * r == x;
    if q >= d {
      MulMono(r, d, q);
      assert false;
    }
  }

  /** A signal: frequency, amplitude and phase offset, with three modulator lists. */
  class Signal {
    var freq: real
    var amp: real
    var off: real
    const shape: Shape
    var mods: seq<seq<Modulator>>

    /** Three lists, every amount in [0, 1]: what `addMod` lets in. */
    predicate Valid()
      reads this
    {
      |mods| == 3 &&
      forall d, k :: 0 <= d < 3 && 0 <= k < |mods[d]| ==> 0.0 <= mods[d][k].amount <= 1.0
    }

    constructor (kind: Shape, frequency: real, amplitude: real, offset: real)
      ensures Valid()
      ensures shape == kind && freq == frequency && amp == amplitude && off == offset
      ensures mods == [[], [], []]
    {
      shape := kind;
      freq := frequency;
      amp := amplitude;
      off := offset;
      mods := [[], [], []];
    }

    /**
     * `addMod(destination, signal, amount)`: a destination outside 0..2 or
     * an amount outside [0, 1] is rejected, destination first, and nothing
     * changes; otherwise the modulator is appended to that destination's
     * list and the other two lists are untouched.
     */
    method AddMod(destination: int, source: nat, amount: real) returns (r: Outcome)
      requires Valid()
      modifies this`mods
      ensures Valid()
      ensures (destination < 0 || destination > 2) ==> r == Rejected(DestinationOutOfRange) && mods == old(mods)
      ensures 0 <= destination <= 2 && (amount < 0.0 || amount > 1.0) ==>
                r == Rejected(AmountOutOfRange) && mods == old(mods)
      ensures 0 <= destination <= 2 && 0.0 <= amount <= 1.0 ==>
                r == Added && |mods| == 3 &&
                mods[destination] == old(mods)[destination] + [Modulator(source, amount)] &&
                forall d :: 0 <= d < 3 && d != destination ==> mods[d] == old(mods)[d]
    {
      if destination < 0 || destination > 2 {
        return Rejected(DestinationOutOfRange);
      }
      if amount < 0.0 || amount > 1.0 {
        return Rejected(AmountOutOfRange);
      }
      var m := Modulator(source, amount);
      mods := mods[destination := mods[destination] + [m]];
      r := Added;
    }

    /** `getFreq(ts)`: frequencies in semitones around `freq`, averaged, back to hertz, clamped to [20, 20000]. */
    function Freqs(ts: seq<real>, num: Numerics, evalMod: (nat, seq<real>) -> seq<real>): (r: seq<real>)
      reads this
      requires Valid() && PreservesLength(evalMod)
      ensures |r| == |ts|
      ensures mods[FREQUENCY] == [] ==> forall i :: 0 <= i < |ts| ==> r[i] == freq
      ensures mods[FREQUENCY] != [] ==> forall i :: 0 <= i < |ts| ==> MIN_FREQ <= r[i] <= MAX_FREQ
    {
      Modulated(freq, num.freqToSemi(freq), mods[FREQUENCY], evalMod, ts, FREQ_SCALE, num.semiToFreq, MIN_FREQ, MAX_FREQ)
    }

    /** `getAmp(ts)`: amplitudes averaged with the modulators and clamped to [0, 1]. */
    function Amps(ts: seq<real>, evalMod: (nat, seq<real>) -> seq<real>): (r: seq<real>)
      reads this
      requires Valid() && PreservesLength(evalMod)
      ensures |r| == |ts|
      ensures mods[AMPLITUDE] == [] ==> forall i :: 0 <= i < |ts| ==> r[i] == amp
      ensures mods[AMPLITUDE] != [] ==> forall i :: 0 <= i < |ts| ==> 0.0 <= r[i] <= 1.0
    {
      Modulated(amp, amp, mods[AMPLITUDE], evalMod, ts, 1.0, x => x, 0.0, 1.0)
    }

    /** `getPhase(ts)`: phase offsets averaged with the modulators and clamped to [0, 2 pi]. */
    function Phases(ts: seq<real>, evalMod: (nat, seq<real>) -> seq<real>): (r: seq<real>)
      reads this
      requires Valid() && PreservesLength(evalMod)
      ensures |r| == |ts|
      ensures mods[PHASE] == [] ==> forall i :: 0 <= i < |ts| ==> r[i] == off
      ensures mods[PHASE] != [] ==> forall i :: 0 <= i < |ts| ==> 0.0 <= r[i] <= PI2
    {
      Modulated(off, off, mods[PHASE], evalMod, ts, PI2, x => x, 0.0, PI2)
    }

    method GetFreq(ts: seq<real>, num: Numerics, evalMod: (nat, seq<real>) -> seq<real>) returns (freqs: seq<real>)
      requires Valid() && PreservesLength(evalMod)
      ensures freqs == Freqs(ts, num, evalMod)
    {
      var f := freq;
      freqs := seq(|ts|, _ => f);
      var ms := mods[FREQUENCY];
      if |ms| == 0 {
        return;
      }
      var s := num.freqToSemi(f);
      var modBuffer := Accumulate(seq(|ts|, _ => s), ms, evalMod, ts, FREQ_SCALE);
      var n := |ms| as real;
      modBuffer := seq(|ts|, i requires 0 <= i < |ts| => modBuffer[i] / n);
      freqs := seq(|ts|, i requires 0 <= i < |ts| => Clamp(num.semiToFreq(modBuffer[i]), MIN_FREQ, MAX_FREQ));
      assert forall i :: 0 <= i < |ts| ==> freqs[i] == Freqs(ts, num, evalMod)[i];
    }

    method GetAmp(ts: seq<real>, evalMod: (nat, seq<real>) -> seq<real>) returns (amps: seq<real>)
      requires Valid() && PreservesLength(evalMod)
      ensures amps == Amps(ts, evalMod)
    {
      var a := amp;
      amps := seq(|ts|, _ => a);
      var ms := mods[AMPLITUDE];
      if |ms| == 0 {
        return;
      }
      amps := Accumulate(amps, ms, evalMod, ts, 1.0);
      var n := |ms| as real;
      amps := seq(|ts|, i requires 0 <= i < |ts| => amps[i] / n);
      amps := seq(|ts|, i requires 0 <= i < |ts| => Clamp(amps[i], 0.0, 1.0));
    }

    method GetPhase(ts: seq<real>, evalMod: (nat, seq<real>) -> seq<real>) returns (phases: seq<real>)
      requires Valid() && PreservesLength(evalMod)
      ensures phases == Phases(ts, evalMod)
    {
      var o := off;
      phases := seq(|ts|, _ => o);
      var ms := mods[PHASE];
      if |ms| == 0 {
        return;
      }
      phases := Accumulate(phases, ms, evalMod, ts, PI2);
      var n := |ms| as real;
      phases := seq(|ts|, i requires 0 <= i < |ts| => phases[i] / n);
      phases := seq(|ts|, i requires 0 <= i < |ts| => Clamp(phases[i], 0.0, PI2));
    }

    /** Whether this signal's `evaluate` is defined at these time stamps. */
    predicate CanEvaluate(ts: seq<real>, num: Numerics, evalMod: (nat, seq<real>) -> seq<real>)
      reads this
      requires Valid() && PreservesLength(evalMod)
    {
      ShapeDefined(shape, Freqs(ts, num, evalMod), Phases(ts, evalMod), ts)
    }

    /** What `evaluate(ts)` returns. */
    function Evaluation(ts: seq<real>, num: Numerics, evalMod: (nat, seq<real>) -> seq<real>): (r: seq<real>)
      reads this
      requires Valid() && PreservesLength(evalMod) && CanEvaluate(ts, num, evalMod)
      ensures |r| == |ts|
    {
      Shaped(shape, Amps(ts, evalMod), Freqs(ts, num, evalMod), Phases(ts, evalMod), ts, num.cos)
    }

    method Evaluate(ts: seq<real>, num: Numerics, evalMod: (nat, seq<real>) -> seq<real>) returns (ys: seq<real>)
      requires Valid() && PreservesLength(evalMod) && CanEvaluate(ts, num, evalMod)
      ensures ys == Evaluation(ts, num, evalMod)
    {
      if shape == Plain {
        return ts;
      }
      var f := GetFreq(ts, num, evalMod);
      var p := GetPhase(ts, evalMod);
      var a := GetAmp(ts, evalMod);
      ys := Shaped(shape, a, f, p, ts, num.cos);
    }

    /** `makeWave(sampleRate, duration)`: the signal evaluated on the time base, in a new `Wave`. */
    method MakeWave(sampleRate: int, duration: real, num: Numerics, evalMod: (nat, seq<real>) -> seq<real>)
      returns (w: Wave)
      requires Valid() && PreservesLength(evalMod) && TimeBaseDefined(sampleRate, duration)
      requires CanEvaluate(TimeBase(sampleRate, duration), num, evalMod)
      ensures fresh(w)
      ensures w.ys == Evaluation(TimeBase(sampleRate, duration), num, evalMod)
      ensures w.rate == sampleRate && w.dur == duration
    {
      var len := Trunc(sampleRate as real * duration);
      var ts := seq(len, i requires 0 <= i < len => i as real);
      ts := seq(|ts|, i requires 0 <= i < |ts| => ts[i] / sampleRate as real);
      assert ts == TimeBase(sampleRate, duration);
      var ys := Evaluate(ts, num, evalMod);
      w := new Wave(ys, sampleRate, duration);
    }
  }

  /**
   * The amounts `addMod` lets in keep a modulated array near its start value:
   * with every modulating output at most m in magnitude, the modulators of
   * one destination add at most n times m times the scale.
   */
  lemma ModulationBound(s: Signal, d: int, evalMod: (nat, seq<real>) -> seq<real>,
                        ts: seq<real>, scale: real, i: int, m: real)
    requires s.Valid() && 0 <= d < 3 && PreservesLength(evalMod) && 0 <= i < |ts| && scale >= 0.0
    requires forall k :: 0 <= k < |s.mods[d]| ==> Abs(evalMod(s.mods[d][k].source, ts)[i]) <= m
    ensures Abs(ModSum(s.mods[d], evalMod, ts, scale, i)) <= Times(|s.mods[d]|, m * scale)
  {
    ModSumBound(s.mods[d], evalMod, ts, scale, i, m);
  }

  /** Without modulators a sine is `amp * cos(PI2 * freq * t + off)` at every time stamp. */
  lemma UnmodulatedSine(s: Signal, ts: seq<real>, num: Numerics, evalMod: (nat, seq<real>) -> seq<real>, i: int)
    requires s.Valid() && PreservesLength(evalMod) && s.shape == Sine && s.mods == [[], [], []]
    requires 0 <= i < |ts|
    ensures s.CanEvaluate(ts, num, evalMod)
    ensures s.Evaluation(ts, num, evalMod)[i] == s.amp * num.cos(PI2 * s.freq * ts[i] + s.off)
  {
    var a, f, p := s.Amps(ts, evalMod), s.Freqs(ts, num, evalMod), s.Phases(ts, evalMod);
    assert a[i] == s.amp && f[i] == s.freq && p[i] == s.off;
    assert SinePhases(f, p, ts)[i] == PI2 * s.freq * ts[i] + s.off;
    assert s.Evaluation(ts, num, evalMod) == SineWave(a, f, p, ts, num.cos);
  }

  /** Every square sample is minus, zero or plus the (modulated) amplitude at its time stamp. */
  lemma SquareLevels(s: Signal, ts: seq<real>, num: Numerics, evalMod: (nat, seq<real>) -> seq<real>)
    requires s.Valid() && PreservesLength(evalMod) && s.shape == Square && |ts| > 0
    ensures s.CanEvaluate(ts, num, evalMod)
    ensures var r, a := s.Evaluation(ts, num, evalMod), s.Amps(ts, evalMod);
            forall i :: 0 <= i < |ts| ==> r[i] == -a[i] || r[i] == 0.0 || r[i] == a[i]
  {
  }
}
