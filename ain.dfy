/**
 * The C++ placeholder processor `ain::AudioProcessor`: a running flag, two suppression
 * levels kept in [0,1], two sample buffers sized from the input device, and two
 * in-place threshold passes over interleaved samples. Samples and levels are reals.
 */
module Ain {
  import opened Options

  function Abs(x: real): real { if x < 0.0 then -x else x }

  /** `std::clamp(v, lo, hi)`: `lo` below the range, `hi` above it, `v` inside it. */
  function Clamp(v: real, lo: real, hi: real): (r: real)
    requires lo <= hi
    ensures lo <= r <= hi
    ensures lo <= v <= hi ==> r == v
    ensures v < lo ==> r == lo
    ensures hi < v ==> r == hi
  {
    if v < lo then lo else if hi < v then hi else v
  }

  /** A level as the setters store it. */
  function UnitLevel(level: real): real { Clamp(level, 0.0, 1.0) }

  lemma UnitLevelIdempotent(level: real)
    ensures UnitLevel(UnitLevel(level)) == UnitLevel(level)
    ensures 0.0 <= UnitLevel(level) <= 1.0
  {
  }

  /** The noise pass on one sample: quiet samples are cut to a tenth. */
  function NoiseSample(x: real, level: real): (y: real)
    ensures Abs(y) <= Abs(x)
    ensures (y < 0.0 <==> x < 0.0) && (y == 0.0 <==> x == 0.0)
    ensures Abs(x) < level ==> y == x * 0.1
    ensures level <= Abs(x) ==> y == x
  {
    if Abs(x) < level then x * 0.1 else x
  }

  /** The voice pass on one sample: loud samples are halved. */
  function VoiceSample(x: real, level: real): (y: real)
    ensures Abs(y) <= Abs(x)
    ensures (y < 0.0 <==> x < 0.0) && (y == 0.0 <==> x == 0.0)
    ensures Abs(x) > level ==> y == x * 0.5
    ensures Abs(x) <= level ==> y == x
  {
    if Abs(x) > level then x * 0.5 else x
  }

  /** The noise pass on a buffer: the first `count` samples are processed, the rest kept. */
  function NoisePass(s: seq<real>, count: nat, level: real): (r: seq<real>)
    requires count <= |s|
  {
    seq(|s|, i requires 0 <= i < |s| => if i < count then NoiseSample(s[i], level) else s[i])
  }

  function VoicePass(s: seq<real>, count: nat, level: real): (r: seq<real>)
    requires count <= |s|
  {
    seq(|s|, i requires 0 <= i < |s| => if i < count then VoiceSample(s[i], level) else s[i])
  }

  /** Both passes in the order `processAudio` applies them. */
  function Pipeline(s: seq<real>, count: nat, noiseLevel: real, voiceLevel: real): seq<real>
    requires count <= |s|
  {
    VoicePass(NoisePass(s, count, noiseLevel), count, voiceLevel)
  }

  /**
   * Across both passes no sample grows in magnitude or changes sign, samples past
   * `count` are untouched, and, both comparisons being strict, a sample whose
   * magnitude equals both levels comes out unchanged.
   */
  lemma PipelineEffect(s: seq<real>, count: nat, noiseLevel: real, voiceLevel: real, i: nat)
    requires count <= |s| && i < |s|
    ensures |Pipeline(s, count, noiseLevel, voiceLevel)| == |s|
    ensures var y := Pipeline(s, count, noiseLevel, voiceLevel)[i];
      && Abs(y) <= Abs(s[i])
      && (y < 0.0 <==> s[i] < 0.0)
      && (y > 0.0 <==> s[i] > 0.0)
      && (count <= i ==> y == s[i])
      && (Abs(s[i]) == noiseLevel == voiceLevel ==> y == s[i])
  {
    var n := NoisePass(s, count, noiseLevel);
    assert n[i] == (if i < count then NoiseSample(s[i], noiseLevel) else s[i]);
    assert Pipeline(s, count, noiseLevel, voiceLevel)[i] == (if i < count then VoiceSample(n[i], voiceLevel) else n[i]);
  }

  /** Storage resized as `std::vector::resize` does: the prefix kept, new entries zero. */
  function Resized(s: seq<real>, n: nat): (r: seq<real>)
    ensures |r| == n
    ensures n <= |s| ==> r == s[..n]
    ensures |s| <= n ==> r == s + seq(n - |s|, _ => 0.0)
  {
    seq(n, i requires 0 <= i < n => if i < |s| then s[i] else 0.0)
  }

  /** What the processor keeps of an initialised device. */
  datatype AudioDevice = AudioDevice(framesPerBuffer: nat, channels: nat)

  class AudioProcessor {
    var inputDevice: Option<AudioDevice>
    var outputDevice: Option<AudioDevice>
    var running: bool
    var noiseSuppressionLevel: real
    var voiceSuppressionLevel: real
    var inputBuffer: array<real>
    var outputBuffer: array<real>

    /** Interleaved samples one call of `processAudio` touches. */
    function SampleCount(numFrames: nat): nat
      requires inputDevice.Some?
      reads this
    {
      numFrames * inputDevice.value.channels
    }

    constructor ()
      ensures !running
      ensures noiseSuppressionLevel == 0.5 && voiceSuppressionLevel == 0.5
      ensures inputDevice == None && outputDevice == None
      ensures inputBuffer.Length == 0 && outputBuffer.Length == 0
      ensures fresh(inputBuffer) && fresh(outputBuffer)
    {
      running := false;
      noiseSuppressionLevel := 0.5;
      voiceSuppressionLevel := 0.5;
      inputDevice := None;
      outputDevice := None;
      inputBuffer := new real[0];
      outputBuffer := new real[0];
    }

    /**
     * `initialize`. The opened input device always replaces the old one. A failed input
     * or, when one is asked for, a failed output device makes the call return false
     * before the buffers are touched; otherwise both buffers are resized to one
     * device buffer of interleaved samples.
     */
    method Initialize(input: AudioDevice, inputOk: bool, output: Option<AudioDevice>, outputOk: bool)
      returns (ok: bool)
      modifies this`inputDevice, this`outputDevice, this`inputBuffer, this`outputBuffer
      ensures inputDevice == Some(input)
      ensures ok == (inputOk && (output.None? || outputOk))
      ensures outputDevice == (if inputOk && output.Some? then output else old(outputDevice))
      ensures !ok ==> inputBuffer == old(inputBuffer) && outputBuffer == old(outputBuffer)
      ensures ok ==>
        && fresh(inputBuffer) && fresh(outputBuffer) && inputBuffer != outputBuffer
        && inputBuffer[..] == Resized(old(inputBuffer[..]), input.framesPerBuffer * input.channels)
        && outputBuffer[..] == Resized(old(outputBuffer[..]), input.framesPerBuffer * input.channels)
    {
      inputDevice := Some(input);
      if !inputOk {
        return false;
      }
      if output.Some? {
        outputDevice := output;
        if !outputOk {
          return false;
        }
      }
      var bufferSize := input.framesPerBuffer * input.channels;
      var inputData := Resized(inputBuffer[..], bufferSize);
      var outputData := Resized(outputBuffer[..], bufferSize);
      inputBuffer := new real[bufferSize](i requires 0 <= i < bufferSize => inputData[i]);
      outputBuffer := new real[bufferSize](i requires 0 <= i < bufferSize => outputData[i]);
      ok := true;
    }

    /** `start` always succeeds; when already running nothing changes. */
    method Start() returns (ok: bool)
      modifies this`running
      ensures ok && running
    {
      if running {
        return true;
      }
      running := true;
      ok := true;
    }

    method Stop()
      modifies this`running
      ensures !running
    {
      running := false;
    }

    method IsRunning() returns (r: bool)
      ensures r == running
    {
      r := running;
    }

    method SetNoiseSuppressionLevel(level: real)
      modifies this`noiseSuppressionLevel
      ensures noiseSuppressionLevel == UnitLevel(level)
    {
      noiseSuppressionLevel := Clamp(level, 0.0, 1.0);
    }

    method SetVoiceSuppressionLevel(level: real)
      modifies this`voiceSuppressionLevel
      ensures voiceSuppressionLevel == UnitLevel(level)
    {
      voiceSuppressionLevel := Clamp(level, 0.0, 1.0);
    }

    /** `applyNoiseSuppression`, in place on `buffer`. */
    method ApplyNoiseSuppression(buffer: array<real>, numFrames: nat)
      requires inputDevice.Some? && SampleCount(numFrames) <= buffer.Length
      modifies buffer
      ensures buffer[..] == NoisePass(old(buffer[..]), SampleCount(numFrames), noiseSuppressionLevel)
    {
      var count := numFrames * inputDevice.value.channels;
      for i := 0 to count
        invariant buffer[..] == NoisePass(old(buffer[..]), i, noiseSuppressionLevel)
      {
        var magnitude := Abs(buffer[i]);
        if magnitude < noiseSuppressionLevel {
          buffer[i] := buffer[i] * 0.1;
        }
      }
    }

    /** `applyVoiceSuppression`, in place on `buffer`. */
    method ApplyVoiceSuppression(buffer: array<real>, numFrames: nat)
      requires inputDevice.Some? && SampleCount(numFrames) <= buffer.Length
      modifies buffer
      ensures buffer[..] == VoicePass(old(buffer[..]), SampleCount(numFrames), voiceSuppressionLevel)
    {
      var count := numFrames * inputDevice.value.channels;
      for i := 0 to count
        invariant buffer[..] == VoicePass(old(buffer[..]), i, voiceSuppressionLevel)
      {
        var magnitude := Abs(buffer[i]);
        if magnitude > voiceSuppressionLevel {
          buffer[i] := buffer[i] * 0.5;
        }
      }
    }

    /**
     * `processAudio`. When stopped nothing changes. When running, the first
     * `numFrames * channels` input samples are copied into the input buffer, both
     * passes run there, and the result is copied to the front of `output`; the rest
     * of `output` and of the input buffer keep their old contents.
     */
    method ProcessAudio(input: array<real>, output: array<real>, numFrames: nat)
      requires running ==> inputDevice.Some?
      requires running ==> SampleCount(numFrames) <= inputBuffer.Length
      requires running ==> SampleCount(numFrames) <= input.Length && SampleCount(numFrames) <= output.Length
      requires input != inputBuffer && output != inputBuffer
      modifies inputBuffer, output
      ensures !running ==> inputBuffer[..] == old(inputBuffer[..]) && output[..] == old(output[..])
      ensures running ==>
        var count := SampleCount(numFrames);
        var processed := Pipeline(old(input[..])[..count] + old(inputBuffer[..])[count..], count,
                                  noiseSuppressionLevel, voiceSuppressionLevel);
        && inputBuffer[..] == processed
        && output[..] == processed[..count] + old(output[..])[count..]
    {
      if !running {
        return;
      }
      var count := numFrames * inputDevice.value.channels;
      ghost var staged := input[..count] + inputBuffer[..][count..];
      forall i | 0 <= i < count {
        inputBuffer[i] := input[i];
      }
      assert inputBuffer[..] == staged;
      ApplyNoiseSuppression(inputBuffer, numFrames);
      ApplyVoiceSuppression(inputBuffer, numFrames);
      forall i | 0 <= i < count {
        output[i] := inputBuffer[i];
      }
    }
  }

  /**
   * The running pipeline sample by sample: within the processed range the output is
   * the voice pass applied to the noise pass of the input sample.
   */
  lemma PipelineSample(input: seq<real>, rest: seq<real>, count: nat,
                       noiseLevel: real, voiceLevel: real, i: nat)
    requires count <= |input| && i < count
    ensures Pipeline(input[..count] + rest, count, noiseLevel, voiceLevel)[i]
         == VoiceSample(NoiseSample(input[i], noiseLevel), voiceLevel)
  {
    var s := input[..count] + rest;
    assert s[i] == input[i];
    var n := NoisePass(s, count, noiseLevel);
    assert n[i] == NoiseSample(input[i], noiseLevel);
  }
}
