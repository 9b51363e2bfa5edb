/**
 * The Python audio processor: the spectral-gating suppressor's state held in place,
 * one iteration of the processing worker, the stream callback, the device lookup and
 * the start/stop guard. Audio frames are flat sequences of samples; the capture and
 * processed queues are sequences with the head at index 0.
 */
module Processor {
  import opened Options
  import opened SpectralGate
  import opened MedianFilter
  import opened Devices
  import AcBand

  /** What `input_device` / `output_device` hold: none, a name, or an index into the device list. */
  datatype DeviceRef = NoDevice | Named(name: string) | Index(index: nat)

  function ToRef(name: Option<string>): DeviceRef {
    match name
    case None => NoDevice
    case Some(n) => Named(n)
  }

  class AudioProcessor {
    const sampleRate: nat
    const chunkSize: nat
    /** The AC bins, fixed at construction. */
    const acBins: seq<nat>

    var channels: int
    var inputDevice: DeviceRef
    var outputDevice: DeviceRef
    var isRunning: bool
    var feedbackEnabled: bool
    var filterEnabled: bool
    var outputVolume: real
    var audioQueue: seq<seq<real>>
    var processedQueue: seq<seq<real>>
    /** How many worker threads `start_processing` has created. */
    var workerStarts: nat

    var noiseProfile: array<real>
    var noiseSamples: nat
    var learningNoise: bool

    /** Number of bins of the real FFT of one chunk. */
    function Bins(): nat { chunkSize / 2 + 1 }

    /** The suppressor's state as a value. */
    ghost function Gate(): GateState
      reads this, noiseProfile
    {
      GateState(noiseProfile[..], noiseSamples, learningNoise)
    }

    ghost predicate Valid()
      reads this, noiseProfile
    {
      && sampleRate > 0 && chunkSize > 0
      && acBins == AcBand.AcBins(sampleRate, chunkSize)
      && noiseProfile.Length == Bins()
      && ValidState(acBins, Bins(), Gate())
    }

    constructor (sampleRate: nat := 44100, channels: int := 1, chunkSize: nat := 1024,
                 inputDevice: Option<string> := None, outputDevice: Option<string> := None)
      requires sampleRate > 0 && chunkSize > 0
      ensures Valid() && fresh(noiseProfile)
      ensures this.sampleRate == sampleRate && this.chunkSize == chunkSize && this.channels == channels
      ensures this.inputDevice == ToRef(inputDevice) && this.outputDevice == ToRef(outputDevice)
      ensures !isRunning && feedbackEnabled && filterEnabled && outputVolume == 1.0
      ensures audioQueue == [] && processedQueue == [] && workerStarts == 0
      ensures Gate() == Initial(Bins())
    {
      this.sampleRate := sampleRate;
      this.chunkSize := chunkSize;
      this.channels := channels;
      this.inputDevice := ToRef(inputDevice);
      this.outputDevice := ToRef(outputDevice);
      isRunning := false;
      feedbackEnabled := true;
      filterEnabled := true;
      outputVolume := 1.0;
      audioQueue := [];
      processedQueue := [];
      workerStarts := 0;
      noiseProfile := new real[chunkSize / 2 + 1](_ => 0.0);
      noiseSamples := 0;
      learningNoise := true;
      var bins := AcBand.AcBins(sampleRate, chunkSize);
      assert forall i :: 0 <= i < |bins| ==> bins[i] in bins;
      acBins := bins;
      new;
      assert noiseProfile[..] == Constant(Bins(), 0.0);
    }

    /** `start_processing`: a worker is started only when not already running. */
    method StartProcessing()
      modifies this`isRunning, this`workerStarts
      ensures isRunning
      ensures workerStarts == if old(isRunning) then old(workerStarts) else old(workerStarts) + 1
    {
      if isRunning {
        return;
      }
      isRunning := true;
      workerStarts := workerStarts + 1;
    }

    /** `stop_processing`: clears the flag the worker loop tests. */
    method StopProcessing()
      modifies this`isRunning
      ensures !isRunning
    {
      isRunning := false;
    }

    /**
     * The bookkeeping of `_apply_noise_suppression` on one frame's magnitude spectrum:
     * the state advances as Frame says and the gained magnitude is returned.
     */
    method ApplyNoiseSuppression(magnitude: seq<real>, std: seq<real>) returns (gained: seq<real>)
      requires Valid() && ValidInput(Bins(), FrameInput(magnitude, std))
      modifies this`noiseSamples, this`learningNoise, noiseProfile
      ensures Valid()
      ensures Gate() == Frame(acBins, old(Gate()), FrameInput(magnitude, std)).state
      ensures gained == Frame(acBins, old(Gate()), FrameInput(magnitude, std)).magnitude
    {
      ghost var r := Frame(acBins, Gate(), FrameInput(magnitude, std));
      LearnNoise(magnitude);
      var gain := FrameGains(acBins, GateState(noiseProfile[..], noiseSamples, learningNoise), magnitude, std);
      gained := ApplyGain(magnitude, MedFilt(gain));
      assert gained == r.magnitude;
      AdaptProfile(gained);
    }

    /** The learning phase: running mean, AC raise after the warm-up, counter and flag. */
    method LearnNoise(magnitude: seq<real>)
      requires Valid() && |magnitude| == Bins() && Positive(magnitude)
      modifies this`noiseSamples, this`learningNoise, noiseProfile
      ensures Valid()
      ensures Gate() == Learn(acBins, old(Gate()), magnitude)
    {
      ghost var s0 := Gate();
      LearnKeepsValid(acBins, s0, magnitude);
      if learningNoise && noiseSamples < MaxNoiseSamples {
        AverageIn(magnitude);
        if noiseSamples > AcWarmup && |acBins| > 0 {
          RaiseAcBins(AcMean(magnitude, acBins) * AcLearnScale);
        }
        noiseSamples := noiseSamples + 1;
        if noiseSamples >= MaxNoiseSamples {
          learningNoise := false;
        }
      }
    }

    /** The running-mean update of every bin, counting the frame as number `noiseSamples + 1`. */
    method AverageIn(magnitude: seq<real>)
      requires |magnitude| == noiseProfile.Length
      modifies noiseProfile
      ensures noiseProfile[..] == LearnProfile(old(noiseProfile[..]), noiseSamples, magnitude)
    {
      forall k | 0 <= k < noiseProfile.Length {
        noiseProfile[k] := MeanUpdate(noiseProfile[k], noiseSamples, magnitude[k]);
      }
    }

    /** The learning-phase AC raise: every AC bin becomes at least `target`. */
    method RaiseAcBins(target: real)
      requires ValidBins(acBins, noiseProfile.Length)
      modifies noiseProfile
      ensures noiseProfile[..] == RatchetAc(old(noiseProfile[..]), acBins, Constant(noiseProfile.Length, target))
    {
      forall k | 0 <= k < noiseProfile.Length && k in acBins {
        noiseProfile[k] := Max(noiseProfile[k], target);
      }
    }

    /** The steady phase: drift toward the gained magnitude, then the AC ratchet. */
    method AdaptProfile(gained: seq<real>)
      requires Valid() && |gained| == Bins() && NonNegative(gained)
      modifies noiseProfile
      ensures Valid()
      ensures Gate() == Adapt(acBins, old(Gate()), gained)
    {
      ghost var s0 := Gate();
      AdaptKeepsValid(acBins, s0, gained);
      if !learningNoise {
        forall k | 0 <= k < noiseProfile.Length {
          noiseProfile[k] := Drift(noiseProfile[k], gained[k]);
        }
        ghost var smoothed := noiseProfile[..];
        assert smoothed == SmoothProfile(s0.profile, gained);
        forall k | 0 <= k < noiseProfile.Length && k in acBins {
          noiseProfile[k] := Max(noiseProfile[k], gained[k] * AcRatchetScale);
        }
        assert noiseProfile[..] == RatchetAc(smoothed, acBins, Scaled(gained, AcRatchetScale));
      }
    }

    /**
     * One iteration of the `_process_audio` loop. When the worker is running and a chunk
     * is waiting, the head chunk is taken, scaled by the output volume, passed through
     * the suppressor when the filter is on, and exactly one frame is appended to the
     * processed queue; an empty queue is a timeout and changes nothing. `analyse` stands
     * for the windowed FFT magnitude of a chunk and `synthesise` for the reconstruction
     * of a chunk from its gained magnitude.
     */
    method ProcessAudioStep(analyse: seq<real> -> seq<real>, std: seq<real>,
                            synthesise: (seq<real>, seq<real>) -> seq<real>)
      returns (looping: bool)
      requires Valid()
      requires isRunning && filterEnabled && audioQueue != [] ==>
        ValidInput(Bins(), FrameInput(analyse(Scaled(audioQueue[0], outputVolume)), std))
      modifies this`audioQueue, this`processedQueue, this`noiseSamples, this`learningNoise, noiseProfile
      ensures Valid()
      ensures looping == isRunning
      ensures !isRunning || old(audioQueue) == [] ==>
        audioQueue == old(audioQueue) && processedQueue == old(processedQueue) && Gate() == old(Gate())
      ensures isRunning && old(audioQueue) != [] ==> audioQueue == old(audioQueue)[1..]
      ensures isRunning && old(audioQueue) != [] && !filterEnabled ==>
        processedQueue == old(processedQueue) + [Scaled(old(audioQueue)[0], outputVolume)]
        && Gate() == old(Gate())
      ensures isRunning && old(audioQueue) != [] && filterEnabled ==>
        var chunk := Scaled(old(audioQueue)[0], outputVolume);
        var r := Frame(acBins, old(Gate()), FrameInput(analyse(chunk), std));
        && processedQueue == old(processedQueue) + [synthesise(chunk, r.magnitude)]
        && Gate() == r.state
    {
      looping := isRunning;
      if !isRunning || audioQueue == [] {
        return;
      }
      var chunk := audioQueue[0];
      audioQueue := audioQueue[1..];
      chunk := Scaled(chunk, outputVolume);
      var processed;
      if filterEnabled {
        var gained := ApplyNoiseSuppression(analyse(chunk), std);
        processed := synthesise(chunk, gained);
      } else {
        processed := chunk;
      }
      processedQueue := processedQueue + [processed];
    }

    /**
     * `audio_callback`: the captured frame is always queued for processing; at most one
     * processed frame is taken. With feedback on, the output is that frame (or, when
     * none is ready, the captured frame) scaled by the output volume; with feedback off
     * it is silence of the captured frame's length.
     */
    method AudioCallback(indata: seq<real>) returns (outdata: seq<real>)
      modifies this`audioQueue, this`processedQueue
      ensures audioQueue == old(audioQueue) + [indata]
      ensures old(processedQueue) == [] ==> processedQueue == []
      ensures old(processedQueue) != [] ==> processedQueue == old(processedQueue)[1..]
      ensures !feedbackEnabled ==> outdata == Constant(|indata|, 0.0)
      ensures feedbackEnabled ==>
        outdata == Scaled(if old(processedQueue) == [] then indata else old(processedQueue)[0], outputVolume)
    {
      audioQueue := audioQueue + [indata];
      if processedQueue != [] {
        var processedAudio := processedQueue[0];
        processedQueue := processedQueue[1..];
        if feedbackEnabled {
          outdata := Scaled(processedAudio, outputVolume);
        } else {
          outdata := Constant(|indata|, 0.0);
        }
      } else {
        if feedbackEnabled {
          outdata := Scaled(indata, outputVolume);
        } else {
          outdata := Constant(|indata|, 0.0);
        }
      }
    }

    /**
     * `set_devices`: the first device named `inputName` becomes the input device and
     * caps the channel count at its input channels; the first device named `outputName`
     * becomes the output device. A name that is not found leaves its fields unchanged.
     * The result is true exactly when both names were found.
     */
    method SetDevices(inputName: string, outputName: string, devices: seq<DeviceInfo>) returns (found: bool)
      modifies this`inputDevice, this`outputDevice, this`channels
      ensures found == (FindDevice(devices, inputName).Some? && FindDevice(devices, outputName).Some?)
      ensures FindDevice(devices, inputName).Some? ==>
        var i := FindDevice(devices, inputName).value;
        inputDevice == Index(i) && channels == MinInt(old(channels), devices[i].maxInputChannels)
      ensures FindDevice(devices, inputName).None? ==> inputDevice == old(inputDevice) && channels == old(channels)
      ensures FindDevice(devices, outputName).Some? ==> outputDevice == Index(FindDevice(devices, outputName).value)
      ensures FindDevice(devices, outputName).None? ==> outputDevice == old(outputDevice)
      ensures channels <= old(channels)
    {
      var inputFound := false;
      var i := 0;
      while i < |devices|
        invariant 0 <= i <= |devices|
        invariant forall j :: 0 <= j < i ==> devices[j].name != inputName
        invariant !inputFound && inputDevice == old(inputDevice) && channels == old(channels)
      {
        if devices[i].name == inputName {
          inputDevice := Index(i);
          inputFound := true;
          channels := MinInt(channels, devices[i].maxInputChannels);
          FirstMatchIsFound(devices, inputName, i);
          break;
        }
        i := i + 1;
      }

      var outputFound := false;
      var o := 0;
      while o < |devices|
        invariant 0 <= o <= |devices|
        invariant forall j :: 0 <= j < o ==> devices[j].name != outputName
        invariant !outputFound && outputDevice == old(outputDevice)
      {
        if devices[o].name == outputName {
          outputDevice := Index(o);
          outputFound := true;
          FirstMatchIsFound(devices, outputName, o);
          break;
        }
        o := o + 1;
      }

      found := inputFound && outputFound;
    }
  }

  /** A processor built with the default rate and chunk size has AC bins 1 to 6. */
  lemma DefaultProcessorAcBins(p: AudioProcessor)
    requires p.Valid() && p.sampleRate == 44100 && p.chunkSize == 1024
    ensures p.acBins == [1, 2, 3, 4, 5, 6]
  {
    AcBand.DefaultAcBins(p.sampleRate, p.chunkSize);
  }
}
