# Ear-training signal core, modelled in Dafny

This project models the per-trial signal-buffer logic of three ear-training
apps. Each app plays a short clip of a loaded audio file, applies a
randomly chosen effect, and asks the listener to name it.

- **Panning trainer** (`panning_training.py`): places a mono clip at a random
  stereo position in [-100, 100] using linear gains. It peak-normalises the
  stereo buffer only when the buffer would clip. A guess is judged against a
  configurable error margin.
- **Band trainer** (`ear_training_app.py`): builds a table of ten frequency
  bands, with the last band's upper edge clamped below Nyquist. It boosts one
  random band by 12 dB through a band-pass filter and mixes the boosted
  component back into the clip. It normalises the mix only when the mix would
  clip. A guess is judged by exact band index.
- **Reverb trainer** (`reverb_training.py`): loads a small library of named
  impulse responses (IRs) at start-up and skips any file that cannot be found.
  It convolves the loaded file with the selected IR (full linear convolution)
  and normalises the result when it would clip. Playback is cut to the dry
  file's length.

Samples are Dafny `real`s. A multi-channel file is first reduced to mono by
averaging its channels frame by frame.

Modules:

- `Signal` (`signal.dfy`): peak, conditional normalisation and downmix.
- `Clip` (`clip.dfy`): the five-second clip extraction shared by the panning
  and band trainers.
- `Panning` (`panning.dfy`), `BandBoost` (`band_boost.dfy`) and `Reverb`
  (`reverb.dfy`): one module per app.

Each app's window is a class. Its fields are the fields the app updates.
Every state-changing method states the new state in terms of a pure function,
and the class keeps a `Valid()` invariant. For instance:

- the clip has exactly `5 * sample_rate` samples;
- the original clip equals the clip;
- the position lies in [-100, 100];
- the altered band indexes the table;
- every stored processed buffer has peak at most 1.

Random draws (`np.random.randint`) are method parameters. A `requires` clause
pins each one to the range the code draws from. The start draw is only
constrained when the code actually draws it, that is, when the file is longer
than one clip.

Two consequences of the code are worth stating, because a reader might
expect otherwise:

- **Padding.** The start offset is always below `len - window`, so a file
  longer than one clip is never padded (`Clip.LongSourceIsWindow`). Padding
  happens only for files shorter than one clip (`Clip.ShortSourceIsPadded`).
- **Collapsed bands.** The code does not check whether a band's clamped edges
  collapse. At sample rates of 30002 Hz and below, the last band's edges are
  out of order, and the filter-design call raises
  (`BandBoost.LastBandDesignableIff`). The model reports that outcome as
  `designed == false` and keeps the previous modified buffer.

## Model

| member | source | states |
|---|---|---|
| `Signal.Peak` | panning_training.py:138 | the peak is at least every sample's absolute value and equals one of them (0 for an empty buffer) |
| `Signal.PeakDivide` | panning_training.py:139-140 | dividing every sample by a positive d divides the peak by d |
| `Signal.NormalizeIfLoud` | ear_training_app.py:140-142 | a buffer whose peak is ≤ 1 comes back unchanged; otherwise every sample is divided by the peak; either way the result's peak is ≤ 1, and exactly 1 when normalisation happened; the length is kept |
| `Signal.ToMono` | panning_training.py:103-104 | a one-dimensional file is kept as it is; a multi-channel file becomes one sample per frame, each the mean of that frame's channels, and no mono sample is louder than that frame's loudest channel |
| `Signal.ToMonoOfIdenticalChannels` | reverb_training.py:73-74 | if every channel of a file carries the same signal, the channel mean is that signal |
| `Signal.Mean` | panning_training.py:104 | the mean of a frame's channels times the channel count is the frame's sum |
| `Signal.MeanBounded` | ear_training_app.py:73-74 | the mean of a frame's channels is bounded by the frame's peak |
| `Clip.MaxStart` | panning_training.py:114 | the draw's upper end is 0 exactly when the source fits in one window; otherwise it is len - window |
| `Clip.ClipStart` | panning_training.py:114-118 | the start is 0 when the source has at most one window of samples; otherwise it is the draw, which lies in [0, len - window), so start + window < len |
| `Clip.ExtractClip` | panning_training.py:119-122 | the clip has exactly `window` samples, for any source length including 0; sample i is source[start + i] where that index exists and 0 otherwise |
| `Clip.LongSourceIsWindow` | ear_training_app.py:107-116 | for a source longer than one window, the clip is exactly the slice source[start .. start + window] (the padding branch is never taken) |
| `Clip.ShortSourceIsPadded` | ear_training_app.py:113-116 | for a source of at most one window, the clip is the whole source followed by window - len zeros |
| `Panning.PanGains` | panning_training.py:131-132 | both gains lie in [0, 2] and add up to 2; their difference is p/50; p = 100 silences the left channel, p = -100 the right channel, and p = 0 gives both gains 1 |
| `Panning.Pan` | panning_training.py:135 | there is one frame per clip sample; left + right is twice the mono sample, and right - left is the sample times p/50 |
| `Panning.Samples` | panning_training.py:135 | the stacked buffer holds 2·len samples, frame i's left sample at 2i and its right sample at 2i + 1 |
| `Panning.StereoPeakIsLoudestChannel` | panning_training.py:138 | the stereo peak bounds both channels of every frame and is reached by one channel of some frame |
| `Panning.NormalizeFramesIfLoud` | panning_training.py:137-140 | the interleaved samples are normalised as one buffer: frames are unchanged if the stereo peak is ≤ 1, otherwise both channels of every frame are divided by it; the result's stereo peak is ≤ 1 |
| `Panning.PanTrial` | panning_training.py:134-140 | the panned, normalised buffer has one frame per clip sample and a stereo peak ≤ 1; it is the raw pan when that fits, and otherwise every frame of the raw pan divided by its stereo peak, giving a peak of exactly 1 |
| `Panning.HardPanSilencesOtherSide` | panning_training.py:131-140 | at position 100 every left sample of the final buffer is 0; at -100 every right sample is 0 |
| `Panning.CentreIsBalanced` | panning_training.py:131-135 | at position 0 the left and right channels are equal in every frame |
| `Panning.WithinMargin` | panning_training.py:163 | a guess is correct exactly when it lies in [position - margin, position + margin] |
| `Panning.PanningTrainer.constructor` | panning_training.py:13-19 | no file is loaded, the margin is 10 and the clip start is 0 |
| `Panning.PanningTrainer.OpenFile` | panning_training.py:101-106 | the downmixed file and its rate are stored, and a first trial is started from the draws |
| `Panning.PanningTrainer.NewClip` | panning_training.py:113-124 | the start is chosen by the draw rule; the clip is cut and padded to `5 * sample_rate` samples; the original clip equals the clip; the position is the pan draw and the panned buffer is `PanTrial(clip, position)`; the file, rate and margin are unchanged |
| `Panning.PanningTrainer.ApplyRandomPanning` | panning_training.py:126-140 | the position is the draw and the panned buffer is the conditionally normalised pan of the current clip |
| `Panning.PanningTrainer.UpdateErrorMargin` | panning_training.py:156-157 | the margin becomes the spin-box value, which is in 1..50 |
| `Panning.PanningTrainer.CheckAnswer` | panning_training.py:159-171 | reports correct iff abs(guess - old position) <= margin; then a new clip and position are always drawn, whatever the outcome |
| `BandBoost.PrepareBands` | ear_training_app.py:85-99 | there are exactly ten bands starting at 20 Hz; consecutive bands share an edge; the first nine are well ordered; the last starts at 15000 Hz and ends at min(20000, nyquist - 1) < nyquist |
| `BandBoost.FixedBandsIndependentOfRate` | ear_training_app.py:88-97 | the first nine bands are the same at every sample rate |
| `BandBoost.LastBandWellOrderedIff` | ear_training_app.py:98 | the last band has low < high exactly when nyquist - 1 > 15000 |
| `BandBoost.Nyquist` | ear_training_app.py:124 | Nyquist is positive and half the sample rate |
| `BandBoost.NormalizedEdges` | ear_training_app.py:124-130 | low_norm >= 1e-5 and high_norm <= 0.99999; each edge equals edge/nyquist unless its clamp applies, in which case it is exactly 1e-5 (low) or 0.99999 (high) |
| `BandBoost.DesignAccepts` | ear_training_app.py:132 | assumed acceptance of the band-pass design: both normalised edges strictly inside (0, 1) and low < high; any other edges make the design raise |
| `BandBoost.BandDesignable` | ear_training_app.py:126-132 | a band in order whose edges sit inside the clamps gives edges strictly inside (0, 1) and in order |
| `BandBoost.LastBandDesignableIff` | ear_training_app.py:98-132 | the filter for the last band can be designed exactly when nyquist - 1 > 15000 (sample rates above 30002 Hz) |
| `BandBoost.AllBandsDesignable` | ear_training_app.py:88-132 | for sample rates from 30003 Hz up to 12 MHz, every one of the ten bands can be designed |
| `BandBoost.Mix` | ear_training_app.py:136-139 | the mix has the clip's length, and mix[i] - clip[i] is the boost gain times filtered[i] |
| `BandBoost.BoostTrial` | ear_training_app.py:139-142 | the modified buffer has the clip's length and peak ≤ 1; it equals the mix when the mix already fits, and otherwise is every mix sample divided by the mix's peak, giving a peak of exactly 1 |
| `BandBoost.SilentBandLeavesClip` | ear_training_app.py:134-142 | when the filtered component is silent and the clip fits, the modified buffer is the clip itself |
| `BandBoost.EarTrainer.constructor` | ear_training_app.py:14-20 | no file is loaded, there is no modified buffer, and the clip start is 0 |
| `BandBoost.EarTrainer.OpenFile` | ear_training_app.py:70-77 | the downmixed file is stored, the band table is built for its rate, and a first trial is started; if the design raises, the previous modified buffer is kept |
| `BandBoost.EarTrainer.PrepareBandTable` | ear_training_app.py:85-99 | the band table becomes `PrepareBands(sample_rate)` |
| `BandBoost.EarTrainer.NewClip` | ear_training_app.py:105-118 | the clip is cut and padded as in the panning app; the original clip equals the clip; then the band boost of the drawn band is applied |
| `BandBoost.EarTrainer.ApplyRandomGain` | ear_training_app.py:120-142 | the altered band is the draw, in [0, 10); if the filter design accepts the clamped edges, the modified buffer is `BoostTrial(clip, filtered)`; otherwise the design raises and the modified buffer keeps its old value |
| `BandBoost.EarTrainer.CheckAnswer` | ear_training_app.py:150-159 | reports correct iff the chosen index equals the old altered band; then a new trial is always started; if its design raises, the previous modified buffer is kept |
| `Reverb.LoadIrs` | reverb_training.py:25-30 | a name is loaded iff its library entry's file can be read, and its value is that file's samples; every key is a library name; the paths reported missing are exactly the library paths that cannot be read (the loop carries on past them) |
| `Reverb.Convolve` | reverb_training.py:85 | the output length is len(a) + len(h) - 1 (0 if either is empty); sample k is the sum over i of a[i]·h[k-i] over valid indices |
| `Reverb.ConvolveWithDelayedTap` | reverb_training.py:85 | convolving with d zeros followed by a gain g delays the signal by d samples and scales it by g |
| `Reverb.ConvolveWithUnitImpulse` | reverb_training.py:85 | convolving with [1.0] returns the signal unchanged |
| `Reverb.ConvolveScaledIr` | reverb_training.py:85 | scaling the IR by c scales the convolution by c |
| `Reverb.ReverbTrial` | reverb_training.py:85-89 | the reverberated buffer has length len(audio) + len(ir) - 1 ≥ len(audio) and peak ≤ 1, and equals the raw convolution when that already fits; otherwise every convolution sample is divided by the convolution's peak, giving a peak of exactly 1 |
| `Reverb.Truncate` | reverb_training.py:98 | playback is a prefix of the reverberated buffer: exactly n samples when the buffer has at least n, otherwise the whole buffer |
| `Reverb.UnitImpulsePlaysDry` | reverb_training.py:85-98 | with the unit impulse as IR, playback is the dry buffer, normalised only if it would clip |
| `Reverb.ReverbTrainer.constructor` | reverb_training.py:14-30 | a library name is loaded iff its file can be read, with that file's samples; the missing paths are recorded; there is no file and no reverberated buffer |
| `Reverb.ReverbTrainer.OpenFile` | reverb_training.py:71-74 | the downmixed file replaces the dry buffer; the previous reverberated buffer is kept |
| `Reverb.ReverbTrainer.ApplyReverb` | reverb_training.py:80-89 | a type that was never loaded leaves the reverberated buffer unchanged; a loaded type sets it to `ReverbTrial(audio, ir)` |
| `Reverb.ReverbTrainer.PlayReverbed` | reverb_training.py:95-98 | there is playback iff a reverberated buffer exists; playback is a prefix of that buffer with exactly len(audio) samples when the buffer is at least that long |

## Left out

- Qt widgets, layouts, labels, dialogs and message boxes. Only the values they
  pass in are modelled: the slider value, the spin-box value, the combo index
  and the selected reverb name. The text shown in labels and result boxes
  (`update_slider_label`, the band captions) is not modelled.
- File dialogs and decoding (`soundfile.read`) are I/O.
  - A decoded file and its sample rate are method parameters.
  - A cancelled dialog changes nothing, so `OpenFile` models only the branch
    where a file was chosen.
  - A read error other than "file not found" while loading IRs propagates in
    the source. It is not modelled: an IR file either decodes or is missing.
- Reverb.LoadIrs: assumes that reading a missing path raises
  `FileNotFoundError`, the only exception the loading loop catches. If the
  audio library instead reports a failed open with another exception type, a
  missing IR would abort start-up rather than be skipped. The model does not
  capture that case.
- Playback (`sounddevice`): `play_original`, `play_panned` and
  `play_modified` only hand a buffer to the audio device. Only
  `play_reverbed`'s truncation is modelled (`PlayReverbed`).
- `np.random.randint` is a draw parameter in each method, restricted by a
  `requires` clause to the drawn range.
- `scipy.signal.butter` and `lfilter`:
  - The filtered clip is an arbitrary parameter of the clip's length.
  - Whether the design accepts the edges is modelled as `DesignAccepts`: both
    normalised edges strictly inside (0, 1), and low < high. A rejected design
    is the call raising.
  - The rest of the caller that the exception skips is not modelled, for
    example `open_file` enabling its buttons.
- Floating point. Samples are reals. `BoostGain` is the decimal value of
  10^(12/20); the proofs use only that it is positive.
- Stereo IR files are not downmixed when loaded, so a stereo IR would make the
  convolution fail. IRs are modelled as mono, and each IR file must be
  non-empty.
- An empty dry buffer makes `np.max` raise after convolution. For that reason
  `ApplyReverb` requires a non-empty buffer whenever the selected IR is loaded.
- Reverb.ReverbTrainer.PlayReverbed: `reverbed_audio` is never initialised
  before the first reverberation, so playing at that point raises an
  attribute error. The model keeps the `is not None` guard, stores `None`,
  and returns no playback instead of modelling the exception.
- The selector is filled before its change signal is connected
  (reverb_training.py:52-53). So filling it never calls `apply_reverb`, and
  there is nothing to model there.
- `ir_generator.py` (FFT deconvolution of dry/wet recordings, and file I/O) is
  not part of this model.
- BandBoost.AllBandsDesignable: stated only for sample rates from 30003 Hz up
  to 12 MHz. At 30002 Hz and below, the last band cannot be designed
  (`LastBandDesignableIff`). Above 12 MHz, the clamped low edge of the 20–60 Hz
  band overtakes its high edge.
- BandBoost.LastBandDesignableIff: stated only for sample rates below 4 GHz,
  where 20000 / nyquist still exceeds the 1e-5 clamp.
