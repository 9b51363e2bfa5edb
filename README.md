# Audio noise suppressor: spectral-gating bookkeeping and the C++ placeholder processor

This project models the core of a desktop audio noise suppressor in Dafny.

The Python `AudioProcessor` (python/audio/processor.py) learns a noise profile per FFT
bin and then gates each frame's magnitude spectrum against it. The model covers:

- the fixed set of "AC" bins whose frequency lies in 30–300 Hz;
- the two-phase learning state machine: a 1.5× running mean for 300 frames, then slow drift;
- the upward AC-bin ratchets in both phases;
- the floor and gain rule, the steady-phase AC gain cap and the voice-energy gate;
- the kernel-7 median smoothing of the gains;
- one iteration of the processing worker and one stream callback, with both queues held as sequences;
- the first-match device lookup `set_devices`;
- the `is_running` guard of `start_processing` / `stop_processing`.

The C++ `ain::AudioProcessor` (cpp/audio/audio_processor.cpp) is a placeholder with:

- a running flag;
- two suppression levels clamped to [0,1];
- two sample buffers sized from the input device;
- two in-place threshold passes: quiet samples are cut to a tenth, loud samples halved;
- a `running`-gated copy pipeline.

Files:

| file | module | contents |
|---|---|---|
| options.dfy | `Options` | `Option` |
| ac_band.dfy | `AcBand` | the AC bin range, stated exactly on integers, and its value for 44100 Hz / 1024 samples |
| median_filter.dfy | `MedianFilter` | a zero-padded kernel-7 median filter standing in for `scipy.signal.medfilt` |
| spectral_gate.dfy | `SpectralGate` | the pure per-frame step `Frame`, the gain pipeline, `Run` over many frames, and the lemmas about them |
| devices.dfy | `Devices` | the device records and the first-match lookup |
| processor.dfy | `Processor` | the Python `AudioProcessor` class: the noise profile as an `array`, the counters and flags, the queues and the device fields |
| ain.dfy | `Ain` | the C++ `ain::AudioProcessor` class over `array<real>` buffers |

The methods of `Processor.AudioProcessor` are specified against `SpectralGate.Frame`,
`Learn` and `Adapt` through the ghost view `Gate()` of the profile array and the counters.
The properties of the suppressor are lemmas about those functions.

## Model

| member | source | states |
|---|---|---|
| AcBand.AcBins | python/audio/processor.py:57-61 | the AC bins are ascending and are exactly the `k <= chunk_size/2` with `30*chunk_size <= k*sample_rate <= 300*chunk_size`, i.e. bin frequency `k*sample_rate/chunk_size` between 30 and 300 Hz inclusive |
| AcBand.BandFrom | python/audio/processor.py:59-61 | the scan from a bin upward yields, in strictly increasing order, exactly the bins in range that fall in the band |
| AcBand.AscendingUnique | python/audio/processor.py:60-61 | two strictly increasing bin lists with the same members are equal, so the AC bin list is determined by its membership rule |
| AcBand.DefaultBand | python/audio/processor.py:12-14 | at 44100 Hz with 1024-sample chunks, bin `k` lies in the 30–300 Hz band iff `1 <= k <= 6` |
| AcBand.DefaultAcBins | python/audio/processor.py:12-14 | with the default rate and chunk size the AC bins are exactly `[1, 2, 3, 4, 5, 6]` |
| AcBand.OneToSix | python/audio/processor.py:60-61 | a strictly increasing list whose members are exactly 1..6 is `[1, 2, 3, 4, 5, 6]` |
| MedianFilter.Insert | python/audio/processor.py:162 | inserting into a sorted window keeps it sorted and adds exactly that one element |
| MedianFilter.SortSeq | python/audio/processor.py:162 | the window sort returns a sorted permutation of the window |
| MedianFilter.MedianWithinWindow | python/audio/processor.py:162 | the median of a seven-sample window lies between any lower and upper bound of its samples |
| MedianFilter.MedFiltKeepsUnit | python/audio/processor.py:162 | median smoothing of gains in [0,1], with zero padding at the edges, gives gains in [0,1] |
| SpectralGate.GainBounds | python/audio/processor.py:145-149 | for magnitude > 0 and floor >= 0 the gain `max(0, (m - 1.5*floor)/m)` lies in [0,1], and it is 0 exactly when `m <= 1.5*floor` |
| SpectralGate.CapOnlyShrinks | python/audio/processor.py:152-154 | the steady-phase cap makes each AC gain `0.02*g`, leaves other gains unchanged, and never raises a non-negative gain |
| SpectralGate.VoiceGateOnlyShrinks | python/audio/processor.py:157-159 | energy strictly above 0.25 leaves the gains unchanged; otherwise every gain is multiplied by 0.05; non-negative gains never rise |
| SpectralGate.FrameGainsInUnit | python/audio/processor.py:144-162 | the gains from the floor, the gain rule, the AC cap (steady phase only) and the voice gate lie in [0,1], and they still lie in [0,1] after median smoothing |
| SpectralGate.ApplyGainBounds | python/audio/processor.py:165 | applying gains in [0,1] to a positive magnitude gives a value between 0 and that magnitude |
| SpectralGate.MeanUpdateNonNegative | python/audio/processor.py:128 | the running-mean update of non-negative values is non-negative |
| SpectralGate.LearnKeepsValid | python/audio/processor.py:126-142 | the learning step keeps the state valid: counter at most 300, learning iff counter below 300, profile non-negative; it adds 1 to the counter exactly while learning |
| SpectralGate.Adapt | python/audio/processor.py:167-178 | the adaptation step changes only the profile, never the counter or the flag |
| SpectralGate.AdaptKeepsValid | python/audio/processor.py:167-178 | the steady-phase drift and AC ratchet keep the profile non-negative |
| SpectralGate.RatchetOnlyRises | python/audio/processor.py:132-137 | an AC max-update leaves every bin at least its old value and each AC bin at least its target, and leaves non-AC bins untouched |
| SpectralGate.LearningRaisesAcBins | python/audio/processor.py:132-137 | once the counter passes 50 during learning, each AC bin ends at least twice the mean AC magnitude and at least its running-mean value |
| SpectralGate.SteadyRaisesAcBins | python/audio/processor.py:139-178 | on every steady frame, including the one on which learning ends, each AC bin ends at least its drifted value and at least 0.9 times its gained magnitude; other bins take the drifted value `0.99*p + 0.01*1.2*g`, where `p` is the profile after that frame's learning step |
| SpectralGate.Frame | python/audio/processor.py:126-178 | one frame keeps the state valid, yields gains in [0,1] and gained magnitudes between 0 and the input magnitudes, adds 1 to the counter exactly when learning, has learning iff counter below 300, and never turns learning back on |
| SpectralGate.Run | python/audio/processor.py:126-178 | any sequence of frames from a valid state ends in a valid state |
| SpectralGate.RunCounter | python/audio/processor.py:50-52 | from the initial state, after `n` frames the counter is `min(n, 300)` and learning holds iff `n < 300` |
| SpectralGate.LearningEndsOnce | python/audio/processor.py:139-141 | learning turns off exactly once: between the prefixes of `i` and `i+1` frames the flag goes from on to off exactly when `i+1 == 300`, and once off it stays off from one prefix to the next |
| SpectralGate.MeanStep | python/audio/processor.py:128 | one update `(p*n + 1.5*m)/(n+1)` turns 1.5 × the mean of `n` magnitudes into 1.5 × the mean of `n+1` |
| SpectralGate.LearningFrameBin | python/audio/processor.py:126-129 | before the last learning frame, a non-AC bin takes exactly the running-mean update |
| SpectralGate.RunningMean | python/audio/processor.py:128 | for fewer than 300 frames, each non-AC bin of the profile is 1.5 × the arithmetic mean of that bin's magnitudes (0 before any frame) |
| Devices.FindFrom | python/audio/processor.py:255-261 | the scan from a position returns the first later index with the name, or none when no later device has it |
| Devices.FindDevice | python/audio/processor.py:255-261 | the lookup returns the first index whose device has the name, and none exactly when no device has it |
| Devices.FirstMatchIsFound | python/audio/processor.py:255-261 | an index carrying the name with no earlier match is what the lookup finds |
| Processor.AudioProcessor.constructor | python/audio/processor.py:11-55 | the parameters default to 44100 Hz, 1 channel, 1024 samples and no devices; the processor starts stopped, with feedback and filter on, volume 1.0, empty queues, a zero profile of `chunk_size/2+1` bins, counter 0, learning on and the AC bins of its rate and chunk size |
| Processor.DefaultProcessorAcBins | python/audio/processor.py:12-14 | a processor with the default rate and chunk size has AC bins `[1, 2, 3, 4, 5, 6]` |
| Processor.AudioProcessor.StartProcessing | python/audio/processor.py:69-76 | after the call the processor is running, and a worker is started exactly when it was not running before |
| Processor.AudioProcessor.StopProcessing | python/audio/processor.py:78-80 | after the call the processor is not running |
| Processor.AudioProcessor.ApplyNoiseSuppression | python/audio/processor.py:108-178 | the profile array, counter and flag become the state of `Frame` on the old state, and the returned magnitudes are those of `Frame` |
| Processor.AudioProcessor.LearnNoise | python/audio/processor.py:126-141 | the in-place learning update gives the state `Learn` computes, the AC bins updated through the array |
| Processor.AudioProcessor.AverageIn | python/audio/processor.py:128 | every bin of the profile array is replaced in place by `(p*n + 1.5*m)/(n+1)`, with `n` the frames seen so far |
| Processor.AudioProcessor.RaiseAcBins | python/audio/processor.py:132-137 | in place, each AC bin of the profile array becomes the larger of its value and the target, and every other bin is kept |
| Processor.AudioProcessor.AdaptProfile | python/audio/processor.py:167-178 | the in-place steady-phase update gives the state `Adapt` computes |
| Processor.AudioProcessor.ProcessAudioStep | python/audio/processor.py:86-106 | when running with a chunk waiting, the head is removed and exactly one frame is appended: `chunk*volume` with the filter off, the synthesis of the gated spectrum with it on; a stopped worker or an empty queue changes nothing |
| Processor.AudioProcessor.AudioCallback | python/audio/processor.py:192-213 | the captured frame is appended to the input queue, at most one processed frame is removed, and the output is that frame (or the captured one) times the volume, or silence when feedback is off |
| Processor.AudioProcessor.SetDevices | python/audio/processor.py:249-271 | the result is true iff both names occur; each device field becomes the first matching index or stays unchanged; channels becomes `min(old, max_input_channels)` only when the input is found, so it never rises |
| Ain.Clamp | cpp/audio/audio_processor.cpp:83-91 | the clamped value lies in `[lo, hi]`, equals `v` when `v` is in range, and equals the nearer bound otherwise |
| Ain.UnitLevelIdempotent | cpp/audio/audio_processor.cpp:83-91 | a stored level lies in [0,1], and clamping it again changes nothing |
| Ain.NoiseSample | cpp/audio/audio_processor.cpp:97-102 | a sample with magnitude strictly below the noise level becomes a tenth of itself, any other sample is kept, its sign is kept and its magnitude does not rise |
| Ain.VoiceSample | cpp/audio/audio_processor.cpp:109-114 | a sample with magnitude strictly above the voice level is halved, any other sample is kept, and its sign is preserved without its magnitude rising |
| Ain.PipelineEffect | cpp/audio/audio_processor.cpp:97-114 | across both passes no sample's magnitude rises and its sign is preserved; samples past the count are untouched; a sample whose magnitude equals both levels passes unchanged |
| Ain.PipelineSample | cpp/audio/audio_processor.cpp:71-80 | inside the processed range each output sample is the voice pass applied to the noise pass of the input sample |
| Ain.Resized | cpp/audio/audio_processor.cpp:37-39 | shrinking keeps the first `n` elements; growing keeps every old element and appends zeros up to length `n` |
| Ain.AudioProcessor.constructor | cpp/audio/audio_processor.cpp:8-13 | the processor starts stopped with both levels at 0.5 |
| Ain.AudioProcessor.Initialize | cpp/audio/audio_processor.cpp:20-42 | the input device is always replaced; the call fails, buffers untouched, when the input or a requested output fails; otherwise both buffers are resized to `framesPerBuffer*channels` |
| Ain.AudioProcessor.Start | cpp/audio/audio_processor.cpp:44-52 | start always returns true and leaves the processor running |
| Ain.AudioProcessor.Stop | cpp/audio/audio_processor.cpp:54-57 | stop leaves the processor not running |
| Ain.AudioProcessor.IsRunning | cpp/audio/audio_processor.cpp:59-62 | the query reports the running flag |
| Ain.AudioProcessor.SetNoiseSuppressionLevel | cpp/audio/audio_processor.cpp:83-86 | the stored noise level is the argument clamped to [0,1] |
| Ain.AudioProcessor.SetVoiceSuppressionLevel | cpp/audio/audio_processor.cpp:88-91 | the stored voice level is the argument clamped to [0,1] |
| Ain.AudioProcessor.ApplyNoiseSuppression | cpp/audio/audio_processor.cpp:93-103 | the buffer becomes the noise pass of its old contents over the first `numFrames*channels` samples, the rest unchanged |
| Ain.AudioProcessor.ApplyVoiceSuppression | cpp/audio/audio_processor.cpp:105-115 | the buffer becomes the voice pass of its old contents over the first `numFrames*channels` samples, the rest unchanged |
| Ain.AudioProcessor.ProcessAudio | cpp/audio/audio_processor.cpp:64-81 | when stopped, neither the input buffer nor the output changes; when running, the input buffer holds both passes of the copied input and the output's prefix is that result, its remainder unchanged |

## Left out

- The window, the FFT, the phase, the inverse FFT, the division by the window and the peak normalisation (python/audio/processor.py:111-123, 180-190) are floating-point library numerics. The worker step takes them as the function parameters `analyse` and `synthesise`. The signal energy (line 123) is the mean of squared magnitudes over reals. The division at line 185 is by a Hann window that is zero at both ends; the model does not capture that.
- `scipy.signal.medfilt` is modelled as a zero-padded median of seven neighbours, which is what that function computes for a 1-D input.
- The `noise_std` update (python/audio/processor.py:129) needs a square root. The per-bin standard deviation is therefore an input to each frame, only required to be non-negative.
- A zero magnitude makes the gain rule divide by zero (python/audio/processor.py:149). The model requires every magnitude to be positive.
- When the AC bin set is empty, `np.mean` of an empty slice gives NaN and a warning (line 133). The assignment at line 134 then writes no element, so the profile is unchanged. The model skips the update in that case, which has the same effect; only the NaN value and the warning are not modelled.
- Threads, joins, queue time-outs, the sound stream and `sd.query_devices` (python/audio/processor.py:75-84, 91, 105-106, 215-247) are concurrency and I/O. `_process_audio` is modelled as one iteration. The thread start is a counter `workerStarts`. The device list is passed to `SetDevices` as data.
- The worker scales each chunk by `output_volume` (line 94) and the callback scales the processed frame by it again (line 205). With the filter off the played frame is therefore `volume² * chunk`. The model keeps both scalings as written.
- Frames are flat 1-D sequences. numpy's broadcasting over the `(frames, channels)` buffers that the sound stream delivers is not modelled.
- SpectralGate.RunningMean: holds for fewer than 300 frames only. On the 300th frame the counter reaches the maximum and learning turns off (lines 139-141) before lines 152 and 168 are evaluated, so the steady-phase cap and drift already apply to that same frame.
- `print` calls, the empty `initialize_model` stub and the status argument of the callback (python/audio/processor.py:63-67, 142, 194-195, 237) have no behaviour to model.
- The GUI (python/gui/main_window.py), the WASAPI device code (cpp/audio/audio_device.cpp), the WebAssembly bridge (cpp/wasm/audio_bridge.cpp) and setup.py are not part of this model. The C++ header is used only for the field list.
- Ain.AudioProcessor.Initialize: whether each device opens is a parameter, because device opening is a foreign call. The device's buffer size and channel count are parameters too, which generalises the source. There, `AudioDevice::initialize` stores its default arguments, 1024 frames and 1 channel, before any system call (cpp/audio/audio_device.cpp:37-41), and `AudioProcessor::initialize` passes only the device id, so those defaults are always used (cpp/audio/audio_processor.cpp:23). So the source always sizes both buffers 1024 × 1, even for a device that failed to open. An input device that fails to open still replaces the old one, as in the source.
- Ain.AudioProcessor.ProcessAudio: `numFrames` is a `nat`. A negative count passes a negative range to `std::copy`, which is undefined behaviour, so it is not modelled. The internal buffer is required to be distinct from both the input and the output, because each `std::copy` has it at one end. The input and the output may be the same array.
- Ain.AudioProcessor.ProcessAudio: calling it while running with no input device opened (`start` before `initialize`) dereferences a null `inputDevice` (cpp/audio/audio_processor.cpp:71). That undefined behaviour is not modelled: the method requires an input device whenever the processor is running.
- Processor.AudioProcessor.constructor: a zero `sample_rate` or `chunk_size` makes `_init_ac_bins` divide by zero (python/audio/processor.py:59), so the constructor raises. The model does not represent that exception: the constructor requires both to be positive.
- The C++ destructor only calls `stop` and is not modelled separately.
- Samples, magnitudes and levels are reals. `float` rounding, NaN and infinities are not modelled, and neither is `int` overflow of `framesPerBuffer*channels` or of `numFrames*channels`.
- The AC band test is exact rational arithmetic on integers. numpy compares floating-point bin frequencies, which could differ at a band edge that falls exactly on a bin.
