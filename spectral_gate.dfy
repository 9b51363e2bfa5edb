/**
 * The bookkeeping of one spectral-gating frame, as pure functions over the magnitude
 * spectrum: the two-phase noise-profile learning, the noise floor and per-bin gain,
 * the AC-band gain cap, the voice-energy gate, the median smoothing of the gains and
 * the steady-phase profile drift with its AC ratchet.
 *
 * A frame's magnitude spectrum (one value per FFT bin) and the current per-bin noise
 * standard deviation are inputs: the transform that produces the first and the square
 * root that updates the second are not part of this model.
 */
module SpectralGate {
  import opened MedianFilter

  /** Weight of the standard deviation in the noise floor. */
  const NoiseThreshold: real := 0.35
  /** A frame is voice when its energy is strictly above this. */
  const VoiceThreshold: real := 0.25
  /** Weight of the old profile in the steady-phase drift. */
  const SmoothingFactor: real := 0.99
  const AcSuppressionFactor: real := 0.98
  /** Number of frames in the learning phase. */
  const MaxNoiseSamples: nat := 300
  /** AC bins are learnt separately once more than this many frames have been learnt. */
  const AcWarmup: nat := 50
  /** Over-estimate of each learnt magnitude. */
  const ProfileOverestimate: real := 1.5
  /** Multiple of the floor a magnitude must exceed to keep any gain. */
  const FloorScale: real := 1.5
  /** AC bins are raised to this multiple of the mean AC magnitude while learning. */
  const AcLearnScale: real := 2.0
  /** Over-estimate of the gained magnitude in the steady-phase drift. */
  const SteadyOverestimate: real := 1.2
  /** AC bins are raised to this fraction of the gained magnitude in the steady phase. */
  const AcRatchetScale: real := 0.9
  /** Gain multiplier of a frame that is not voice. */
  const NonVoiceGain: real := 0.05

  function Max(a: real, b: real): real { if a >= b then a else b }
  function Min(a: real, b: real): real { if a <= b then a else b }

  predicate NonNegative(s: seq<real>) { forall k :: 0 <= k < |s| ==> 0.0 <= s[k] }
  predicate Positive(s: seq<real>) { forall k :: 0 <= k < |s| ==> 0.0 < s[k] }

  /** Every AC bin index addresses one of `bins` FFT bins. */
  predicate ValidBins(acBins: seq<nat>, bins: nat) {
    forall i :: 0 <= i < |acBins| ==> acBins[i] < bins
  }

  function Sum(s: seq<real>): real {
    if s == [] then 0.0 else Sum(s[..|s| - 1]) + s[|s| - 1]
  }

  function SumSquares(s: seq<real>): real {
    if s == [] then 0.0 else SumSquares(s[..|s| - 1]) + s[|s| - 1] * s[|s| - 1]
  }

  /** Frame energy: the mean of the squared magnitudes. */
  function Energy(mag: seq<real>): real
    requires |mag| > 0
  {
    SumSquares(mag) / |mag| as real
  }

  /** The magnitudes at the AC bins. */
  function AtBins(mag: seq<real>, acBins: seq<nat>): (r: seq<real>)
    requires ValidBins(acBins, |mag|)
    ensures |r| == |acBins|
  {
    seq(|acBins|, i requires 0 <= i < |acBins| => mag[acBins[i]])
  }

  /** The mean magnitude over the AC bins. */
  function AcMean(mag: seq<real>, acBins: seq<nat>): real
    requires ValidBins(acBins, |mag|) && |acBins| > 0
  {
    Sum(AtBins(mag, acBins)) / |acBins| as real
  }

  function Constant(n: nat, x: real): (r: seq<real>)
    ensures |r| == n
  {
    seq(n, _ => x)
  }

  function Scaled(s: seq<real>, c: real): (r: seq<real>)
    ensures |r| == |s|
  {
    seq(|s|, k requires 0 <= k < |s| => s[k] * c)
  }

  /** One learning frame folded into the running mean of the over-estimated magnitudes. */
  function MeanUpdate(p: real, n: nat, m: real): real {
    (p * n as real + m * ProfileOverestimate) / (n as real + 1.0)
  }

  function LearnProfile(profile: seq<real>, n: nat, mag: seq<real>): (r: seq<real>)
    requires |mag| == |profile|
    ensures |r| == |profile|
  {
    seq(|profile|, k requires 0 <= k < |profile| => MeanUpdate(profile[k], n, mag[k]))
  }

  /** Each AC bin of the profile raised to at least its target; other bins kept. */
  function RatchetAc(profile: seq<real>, acBins: seq<nat>, target: seq<real>): (r: seq<real>)
    requires |target| == |profile|
    ensures |r| == |profile|
  {
    seq(|profile|, k requires 0 <= k < |profile| =>
      if k in acBins then Max(profile[k], target[k]) else profile[k])
  }

  /** The steady-phase drift of one profile value toward the over-estimated gained magnitude. */
  function Drift(p: real, g: real): real {
    SmoothingFactor * p + (1.0 - SmoothingFactor) * g * SteadyOverestimate
  }

  function SmoothProfile(profile: seq<real>, gained: seq<real>): (r: seq<real>)
    requires |gained| == |profile|
    ensures |r| == |profile|
  {
    seq(|profile|, k requires 0 <= k < |profile| => Drift(profile[k], gained[k]))
  }

  /** Noise floor per bin: the profile plus the weighted standard deviation. */
  function Floor(profile: seq<real>, std: seq<real>): (r: seq<real>)
    requires |std| == |profile|
    ensures |r| == |profile|
  {
    seq(|profile|, k requires 0 <= k < |profile| => profile[k] + std[k] * NoiseThreshold)
  }

  /** Spectral gate of one bin: the clipped excess of the magnitude over the scaled floor. */
  function Gain(m: real, floor: real): real
    requires m > 0.0
  {
    Max(0.0, (m - floor * FloorScale) / m)
  }

  function Gains(mag: seq<real>, floor: seq<real>): (r: seq<real>)
    requires |floor| == |mag| && Positive(mag)
    ensures |r| == |mag|
  {
    seq(|mag|, k requires 0 <= k < |mag| => Gain(mag[k], floor[k]))
  }

  /** The steady-phase cap on the gains of the AC bins. */
  function CapAc(gain: seq<real>, acBins: seq<nat>): (r: seq<real>)
    ensures |r| == |gain|
  {
    seq(|gain|, k requires 0 <= k < |gain| =>
      if k in acBins then Min(gain[k], gain[k] * (1.0 - AcSuppressionFactor)) else gain[k])
  }

  /** The voice-activity gate: a frame that is not voice has all its gains scaled down. */
  function VoiceGate(gain: seq<real>, energy: real): (r: seq<real>)
    ensures |r| == |gain|
  {
    if energy > VoiceThreshold then gain else Scaled(gain, NonVoiceGain)
  }

  function ApplyGain(mag: seq<real>, gain: seq<real>): (r: seq<real>)
    requires |gain| == |mag|
    ensures |r| == |mag|
  {
    seq(|mag|, k requires 0 <= k < |mag| => mag[k] * gain[k])
  }

  /** noise_profile, noise_samples and learning_noise of the suppressor. */
  datatype GateState = GateState(profile: seq<real>, samples: nat, learning: bool)

  /** One frame's analysis: its magnitude spectrum and the current noise deviation. */
  datatype FrameInput = FrameInput(magnitude: seq<real>, std: seq<real>)

  /** The state after a frame, the gains before smoothing and the gained magnitude. */
  datatype FrameResult = FrameResult(state: GateState, gain: seq<real>, magnitude: seq<real>)

  /** The suppressor as constructed: a zero profile, nothing learnt, learning. */
  function Initial(bins: nat): GateState {
    GateState(Constant(bins, 0.0), 0, true)
  }

  /**
   * The suppressor's invariant: one profile value per bin, none negative, and the
   * phase flag agreeing with the counter (learning exactly while fewer than
   * MaxNoiseSamples frames have been learnt).
   */
  predicate ValidState(acBins: seq<nat>, bins: nat, s: GateState) {
    && bins > 0
    && |s.profile| == bins
    && ValidBins(acBins, bins)
    && s.samples <= MaxNoiseSamples
    && (s.learning <==> s.samples < MaxNoiseSamples)
    && NonNegative(s.profile)
  }

  /** A frame has one positive magnitude and one non-negative deviation per bin. */
  predicate ValidInput(bins: nat, f: FrameInput) {
    |f.magnitude| == bins && |f.std| == bins && Positive(f.magnitude) && NonNegative(f.std)
  }

  /** The learning phase of a frame: the running mean, the AC raise and the counter. */
  function Learn(acBins: seq<nat>, s: GateState, mag: seq<real>): (r: GateState)
    requires ValidBins(acBins, |s.profile|) && |mag| == |s.profile|
    ensures |r.profile| == |s.profile|
  {
    if s.learning && s.samples < MaxNoiseSamples then
      var averaged := LearnProfile(s.profile, s.samples, mag);
      var raised :=
        if s.samples > AcWarmup && |acBins| > 0
        then RatchetAc(averaged, acBins, Constant(|averaged|, AcMean(mag, acBins) * AcLearnScale))
        else averaged;
      var n := s.samples + 1;
      GateState(raised, n, if n >= MaxNoiseSamples then false else s.learning)
    else
      s
  }

  /** The gains of a frame before smoothing: gate, steady-phase AC cap, voice gate. */
  function FrameGains(acBins: seq<nat>, s: GateState, mag: seq<real>, std: seq<real>): (r: seq<real>)
    requires |mag| == |s.profile| && |std| == |s.profile| && |mag| > 0 && Positive(mag)
    ensures |r| == |mag|
  {
    var raw := Gains(mag, Floor(s.profile, std));
    var capped := if !s.learning then CapAc(raw, acBins) else raw;
    VoiceGate(capped, Energy(mag))
  }

  /** The steady phase's profile drift and AC ratchet toward the gained magnitude. */
  function Adapt(acBins: seq<nat>, s: GateState, gained: seq<real>): (r: GateState)
    requires |gained| == |s.profile|
    ensures |r.profile| == |s.profile| && r.samples == s.samples && r.learning == s.learning
  {
    if !s.learning then
      s.(profile := RatchetAc(SmoothProfile(s.profile, gained), acBins, Scaled(gained, AcRatchetScale)))
    else
      s
  }

  /**
   * One frame of the suppressor. The phase tests of the gain cap and of the drift see
   * the flag as the learning step left it, so the frame that completes learning is
   * already treated as steady.
   */
  function Frame(acBins: seq<nat>, s: GateState, f: FrameInput): (r: FrameResult)
    requires ValidState(acBins, |s.profile|, s) && ValidInput(|s.profile|, f)
    ensures ValidState(acBins, |s.profile|, r.state)
    ensures |r.gain| == |s.profile| && |r.magnitude| == |s.profile|
    ensures InUnit(r.gain)
    ensures forall k :: 0 <= k < |f.magnitude| ==> 0.0 <= r.magnitude[k] <= f.magnitude[k]
    ensures r.state.samples == if s.learning then s.samples + 1 else s.samples
    ensures r.state.learning == (r.state.samples < MaxNoiseSamples)
    ensures r.state.learning ==> s.learning
  {
    var learnt := Learn(acBins, s, f.magnitude);
    LearnKeepsValid(acBins, s, f.magnitude);
    var gain := FrameGains(acBins, learnt, f.magnitude, f.std);
    FrameGainsInUnit(acBins, learnt, f.magnitude, f.std);
    MedFiltKeepsUnit(gain);
    var gained := ApplyGain(f.magnitude, MedFilt(gain));
    ApplyGainBounds(f.magnitude, MedFilt(gain));
    var next := Adapt(acBins, learnt, gained);
    AdaptKeepsValid(acBins, learnt, gained);
    FrameResult(next, gain, gained)
  }

  /** The state after a sequence of frames. */
  function Run(acBins: seq<nat>, s: GateState, frames: seq<FrameInput>): (r: GateState)
    requires ValidState(acBins, |s.profile|, s)
    requires forall i :: 0 <= i < |frames| ==> ValidInput(|s.profile|, frames[i])
    ensures ValidState(acBins, |s.profile|, r)
    decreases |frames|
  {
    if frames == [] then s
    else Frame(acBins, Run(acBins, s, frames[..|frames| - 1]), frames[|frames| - 1]).state
  }

  // ---------------------------------------------------------------- gain rule

  /**
   * For a positive magnitude and a non-negative floor the gain lies in [0, 1], and it
   * is zero exactly when the magnitude does not exceed 1.5 times the floor.
   */
  lemma GainBounds(m: real, floor: real)
    requires m > 0.0 && floor >= 0.0
    ensures 0.0 <= Gain(m, floor) <= 1.0
    ensures Gain(m, floor) == 0.0 <==> m <= floor * FloorScale
  {
    var a := floor * FloorScale;
    assert m / m == 1.0;
    assert a / m >= 0.0;
    assert (m - a) / m == m / m - a / m;
    if m > a {
      assert (m - a) / m > 0.0;
    } else {
      assert (m - a) / m <= 0.0;
    }
  }

  /** In the steady phase each AC gain becomes 2% of itself; other gains are kept. */
  lemma CapOnlyShrinks(gain: seq<real>, acBins: seq<nat>)
    requires NonNegative(gain)
    ensures forall k :: 0 <= k < |gain| && k in acBins ==> CapAc(gain, acBins)[k] == 0.02 * gain[k]
    ensures forall k :: 0 <= k < |gain| && k !in acBins ==> CapAc(gain, acBins)[k] == gain[k]
    ensures forall k :: 0 <= k < |gain| ==> 0.0 <= CapAc(gain, acBins)[k] <= gain[k]
  {
  }

  /** Unless the frame is voice every gain is multiplied by 0.05; gains never grow. */
  lemma VoiceGateOnlyShrinks(gain: seq<real>, energy: real)
    requires NonNegative(gain)
    ensures energy > VoiceThreshold ==> VoiceGate(gain, energy) == gain
    ensures energy <= VoiceThreshold ==> forall k :: 0 <= k < |gain| ==> VoiceGate(gain, energy)[k] == 0.05 * gain[k]
    ensures forall k :: 0 <= k < |gain| ==> 0.0 <= VoiceGate(gain, energy)[k] <= gain[k]
  {
  }

  /** Every gain of a frame lies in [0, 1], before and after median smoothing. */
  lemma FrameGainsInUnit(acBins: seq<nat>, s: GateState, mag: seq<real>, std: seq<real>)
    requires |mag| == |s.profile| && |std| == |s.profile| && |mag| > 0
    requires Positive(mag) && NonNegative(std) && NonNegative(s.profile)
    ensures InUnit(FrameGains(acBins, s, mag, std))
    ensures InUnit(MedFilt(FrameGains(acBins, s, mag, std)))
  {
    var floor := Floor(s.profile, std);
    var raw := Gains(mag, floor);
    forall k | 0 <= k < |raw|
      ensures 0.0 <= raw[k] <= 1.0
    {
      GainBounds(mag[k], floor[k]);
    }
    var capped := if !s.learning then CapAc(raw, acBins) else raw;
    CapOnlyShrinks(raw, acBins);
    VoiceGateOnlyShrinks(capped, Energy(mag));
    MedFiltKeepsUnit(FrameGains(acBins, s, mag, std));
  }

  // ---------------------------------------------------------------- invariant

  lemma MeanUpdateNonNegative(p: real, n: nat, m: real)
    requires p >= 0.0 && m >= 0.0
    ensures MeanUpdate(p, n, m) >= 0.0
  {
    assert p * n as real >= 0.0;
  }

  lemma LearnKeepsValid(acBins: seq<nat>, s: GateState, mag: seq<real>)
    requires ValidState(acBins, |s.profile|, s) && |mag| == |s.profile| && Positive(mag)
    ensures ValidState(acBins, |s.profile|, Learn(acBins, s, mag))
    ensures Learn(acBins, s, mag).samples == if s.learning then s.samples + 1 else s.samples
  {
    if s.learning {
      var averaged := LearnProfile(s.profile, s.samples, mag);
      forall k | 0 <= k < |averaged|
        ensures averaged[k] >= 0.0
      {
        MeanUpdateNonNegative(s.profile[k], s.samples, mag[k]);
      }
    }
  }

  lemma AdaptKeepsValid(acBins: seq<nat>, s: GateState, gained: seq<real>)
    requires ValidState(acBins, |s.profile|, s) && |gained| == |s.profile| && NonNegative(gained)
    ensures ValidState(acBins, |s.profile|, Adapt(acBins, s, gained))
  {
    if !s.learning {
      var smoothed := SmoothProfile(s.profile, gained);
      forall k | 0 <= k < |smoothed|
        ensures smoothed[k] >= 0.0
      {
        assert smoothed[k] == Drift(s.profile[k], gained[k]);
        assert SmoothingFactor * s.profile[k] >= 0.0;
        assert (1.0 - SmoothingFactor) * gained[k] * SteadyOverestimate >= 0.0;
      }
      var raised := RatchetAc(smoothed, acBins, Scaled(gained, AcRatchetScale));
      assert forall k :: 0 <= k < |raised| ==> raised[k] >= smoothed[k];
    }
  }

  /** A magnitude scaled by a gain in [0, 1] stays between 0 and itself. */
  lemma ApplyGainBounds(mag: seq<real>, gain: seq<real>)
    requires |gain| == |mag| && Positive(mag) && InUnit(gain)
    ensures forall k :: 0 <= k < |mag| ==> 0.0 <= ApplyGain(mag, gain)[k] <= mag[k]
  {
    forall k | 0 <= k < |mag|
      ensures 0.0 <= mag[k] * gain[k] <= mag[k]
    {
      assert mag[k] * gain[k] <= mag[k] * 1.0;
    }
  }

  // ---------------------------------------------------------------- per-frame properties

  /** Both AC ratchets leave every bin at least where it was, AC bins at least at their target. */
  lemma RatchetOnlyRises(profile: seq<real>, acBins: seq<nat>, target: seq<real>)
    requires |target| == |profile|
    ensures forall k :: 0 <= k < |profile| ==> RatchetAc(profile, acBins, target)[k] >= profile[k]
    ensures forall k :: 0 <= k < |profile| && k in acBins ==> RatchetAc(profile, acBins, target)[k] >= target[k]
    ensures forall k :: 0 <= k < |profile| && k !in acBins ==> RatchetAc(profile, acBins, target)[k] == profile[k]
  {
  }

  /**
   * A learning frame after the warm-up raises every AC bin to at least twice the mean
   * AC magnitude of the frame, and to at least its running-mean value.
   */
  lemma LearningRaisesAcBins(acBins: seq<nat>, s: GateState, mag: seq<real>, k: nat)
    requires ValidBins(acBins, |s.profile|) && |mag| == |s.profile|
    requires s.learning && AcWarmup < s.samples < MaxNoiseSamples
    requires k < |s.profile| && k in acBins
    ensures Learn(acBins, s, mag).profile[k] >= AcMean(mag, acBins) * AcLearnScale
    ensures Learn(acBins, s, mag).profile[k] >= MeanUpdate(s.profile[k], s.samples, mag[k])
  {
    var averaged := LearnProfile(s.profile, s.samples, mag);
    RatchetOnlyRises(averaged, acBins, Constant(|averaged|, AcMean(mag, acBins) * AcLearnScale));
  }

  /**
   * A steady frame, including the one on which learning ends, leaves every AC bin at
   * least at 0.9 times its gained magnitude and at least at its drifted value; every
   * other bin gets exactly its drifted value. The drift starts from the profile as the
   * learning step of the same frame left it.
   */
  lemma SteadyRaisesAcBins(acBins: seq<nat>, s: GateState, f: FrameInput, k: nat)
    requires ValidState(acBins, |s.profile|, s) && ValidInput(|s.profile|, f)
    requires !Learn(acBins, s, f.magnitude).learning && k < |s.profile|
    ensures var r := Frame(acBins, s, f);
      k in acBins ==> r.state.profile[k] >= r.magnitude[k] * AcRatchetScale
    ensures var r := Frame(acBins, s, f);
      k in acBins ==> r.state.profile[k] >= Drift(Learn(acBins, s, f.magnitude).profile[k], r.magnitude[k])
    ensures var r := Frame(acBins, s, f);
      k !in acBins ==> r.state.profile[k] == Drift(Learn(acBins, s, f.magnitude).profile[k], r.magnitude[k])
  {
    var r := Frame(acBins, s, f);
    var learnt := Learn(acBins, s, f.magnitude);
    RatchetOnlyRises(SmoothProfile(learnt.profile, r.magnitude), acBins, Scaled(r.magnitude, AcRatchetScale));
  }

  // ---------------------------------------------------------------- learning over many frames

  function MinInt(a: int, b: int): int { if a <= b then a else b }

  /**
   * From the initial state, after `n` frames the counter is min(n, 300) and the
   * suppressor is learning exactly when fewer than 300 frames have been seen.
   */
  lemma {:induction false} RunCounter(acBins: seq<nat>, bins: nat, frames: seq<FrameInput>)
    requires ValidState(acBins, bins, Initial(bins))
    requires forall i :: 0 <= i < |frames| ==> ValidInput(bins, frames[i])
    ensures Run(acBins, Initial(bins), frames).samples == MinInt(|frames|, MaxNoiseSamples)
    ensures Run(acBins, Initial(bins), frames).learning <==> |frames| < MaxNoiseSamples
  {
    if frames != [] {
      RunCounter(acBins, bins, frames[..|frames| - 1]);
    }
  }

  /**
   * Learning ends exactly once: among consecutive prefixes of any frame sequence, the
   * flag goes from learning to steady only between the 299th and the 300th frame.
   */
  lemma LearningEndsOnce(acBins: seq<nat>, bins: nat, frames: seq<FrameInput>, i: nat)
    requires ValidState(acBins, bins, Initial(bins))
    requires forall j :: 0 <= j < |frames| ==> ValidInput(bins, frames[j])
    requires i < |frames|
    ensures Run(acBins, Initial(bins), frames[..i]).learning && !Run(acBins, Initial(bins), frames[..i + 1]).learning
        <==> i + 1 == MaxNoiseSamples
    ensures !Run(acBins, Initial(bins), frames[..i]).learning ==> !Run(acBins, Initial(bins), frames[..i + 1]).learning
  {
    RunCounter(acBins, bins, frames[..i]);
    RunCounter(acBins, bins, frames[..i + 1]);
  }

  /** The sum of bin `k`'s magnitudes over a sequence of frames. */
  function BinSum(frames: seq<FrameInput>, k: nat): real
    requires forall i :: 0 <= i < |frames| ==> k < |frames[i].magnitude|
  {
    if frames == [] then 0.0 else BinSum(frames[..|frames| - 1], k) + frames[|frames| - 1].magnitude[k]
  }

  /** The mean of bin `k`'s magnitudes over a non-empty sequence of frames. */
  function BinMean(frames: seq<FrameInput>, k: nat): real
    requires |frames| > 0
    requires forall i :: 0 <= i < |frames| ==> k < |frames[i].magnitude|
  {
    BinSum(frames, k) / |frames| as real
  }

  lemma ScaleDivide(t: real, d: real)
    requires d > 0.0
    ensures (ProfileOverestimate * t) / d == ProfileOverestimate * (t / d)
  {
    assert (1.5 * t) / d == 1.5 * (t / d);
  }

  /**
   * The arithmetic of one running-mean step: if the profile is 1.5 times the mean of
   * `count` values (0 when there are none), folding in one more value keeps it so.
   */
  lemma MeanStep(q: real, count: nat, m: real, total: real, p: real, newTotal: real, newCount: nat)
    requires count == 0 ==> q == 0.0 && total == 0.0
    requires count > 0 ==> q == ProfileOverestimate * (total / count as real)
    requires p == MeanUpdate(q, count, m)
    requires newTotal == total + m && newCount == count + 1
    ensures p == ProfileOverestimate * (newTotal / newCount as real)
  {
    var c := count as real;
    var d := c + 1.0;
    if count > 0 {
      assert total / c * c == total;
      assert q * c == ProfileOverestimate * total;
    }
    assert q * c == ProfileOverestimate * total;
    var x := q * c + m * ProfileOverestimate;
    assert x == ProfileOverestimate * newTotal;
    assert p == x / d;
    assert newCount as real == d;
    ScaleDivide(newTotal, d);
  }

  /** A learning frame that does not complete learning updates a non-AC bin by the running mean only. */
  lemma LearningFrameBin(acBins: seq<nat>, s: GateState, f: FrameInput, k: nat)
    requires ValidState(acBins, |s.profile|, s) && ValidInput(|s.profile|, f)
    requires s.samples + 1 < MaxNoiseSamples && k < |s.profile| && k !in acBins
    ensures Frame(acBins, s, f).state.profile[k] == MeanUpdate(s.profile[k], s.samples, f.magnitude[k])
  {
    var learnt := Learn(acBins, s, f.magnitude);
    var averaged := LearnProfile(s.profile, s.samples, f.magnitude);
    if s.samples > AcWarmup && |acBins| > 0 {
      RatchetOnlyRises(averaged, acBins, Constant(|averaged|, AcMean(f.magnitude, acBins) * AcLearnScale));
    }
    assert learnt.profile[k] == averaged[k];
    assert learnt.learning;
  }

  /**
   * The running mean: for a bin outside the AC band, after n frames of learning that do
   * not yet complete it (n < 300), the profile is 1.5 times the mean of the n magnitudes
   * (and still 0 before the first frame).
   */
  lemma {:induction false} RunningMean(acBins: seq<nat>, bins: nat, frames: seq<FrameInput>, k: nat)
    requires ValidState(acBins, bins, Initial(bins))
    requires forall i :: 0 <= i < |frames| ==> ValidInput(bins, frames[i])
    requires |frames| < MaxNoiseSamples && k < bins && k !in acBins
    ensures frames == [] ==> Run(acBins, Initial(bins), frames).profile[k] == 0.0
    ensures frames != [] ==> Run(acBins, Initial(bins), frames).profile[k] == ProfileOverestimate * BinMean(frames, k)
  {
    var n := |frames|;
    if n > 0 {
      var prefix := frames[..n - 1];
      var last := frames[n - 1];
      RunningMean(acBins, bins, prefix, k);
      RunCounter(acBins, bins, prefix);
      var prev := Run(acBins, Initial(bins), prefix);
      var q := prev.profile[k];
      var p := Run(acBins, Initial(bins), frames).profile[k];
      assert Run(acBins, Initial(bins), frames) == Frame(acBins, prev, last).state;
      assert |prefix| == n - 1;
      assert prev.samples == n - 1;
      LearningFrameBin(acBins, prev, last, k);
      assert p == MeanUpdate(q, prev.samples, last.magnitude[k]);
      assert n - 1 > 0 ==> q == ProfileOverestimate * (BinSum(prefix, k) / (n - 1) as real);
      assert BinSum(frames, k) == BinSum(prefix, k) + last.magnitude[k];
      MeanStep(q, n - 1, last.magnitude[k], BinSum(prefix, k), p, BinSum(frames, k), n);
    }
  }
}
