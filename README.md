# Signal generator: a Dafny model

The repository is a small C++ signal generator. A `Signal` has a frequency,
an amplitude and a phase offset. It can be modulated by other signals
through three lists of modulators: frequency, amplitude and phase. Four
waveforms derive from `Signal`: sine, triangle, saw and square. Each
evaluates to an array of samples over a time base. `makeWave` wraps those
samples in a `Wave`. `Wave::toWav` writes the wave as a mono 16-bit PCM
RIFF/WAVE file: a packed 44-byte `wavHeader`, then the samples scaled by
2^14 and truncated to `int16_t`.

The model has four modules:

- `MathUtil` (`math_util.dfy`) holds the numeric helpers `unbias`,
  `normalize`, `fractional`, `sign` and `clamp`, with the `valarray`
  reductions they use. Samples are `real` and a `valarray<double>` is a
  `seq<real>`.
- `WavFormat` (`wav_format.dfy`) holds the `wavHeader` struct as a datatype.
  It has its little-endian memory image (`Serialize`) and the inverse
  (`Parse`), both round trips, the byte layout of every field, and the
  values of the four multi-character tag literals.
- `WaveFile` (`wave.dfy`) holds the `Wave` class and `toWav`, which scales
  the samples in place and produces the byte stream it writes. Lemmas state
  what the stream contains byte by byte: the header, the tags, the sizes and
  every sample.
- `Signals` (`signal.dfy`) holds the `Signal` class with its modulator
  lists. It has the validated `addMod`, and the three getters as loops over
  the modulators, each proved equal to a specification function. It also has
  the four waveforms as compositions of the getters, and `makeWave` with its
  time base.

Dafny's `real` is exact, so IEEE rounding is not modelled. Values in the
source that are `float` or `double` are `real` here, and integer fields
keep their widths: `uint32_t` header fields are reduced modulo 2^32, and
the `int16_t` conversion truncates toward zero.

Some of the source's calls are left uninterpreted. The model takes them as
parameters:

- `cos`, `semiToFreq` and `freqToSemi` come as a `Numerics` value.
- A modulator's `Signal *` becomes an index `source`. What that signal
  evaluates to at the time stamps is the caller's function `evalMod`.
- Whether the output file could be opened comes in as the flag `canOpen`.

## Model

| member | source | states |
|---|---|---|
| WavFormat.LE32 | waves.h:11-25 | a `uint32_t` field is stored as 4 bytes that read back, little-endian, as the same value |
| WavFormat.LE32OfFromLE32 | waves.h:11-25 | every 4-byte string is the stored form of the value it reads as (the other half of the round trip) |
| WavFormat.LE16 | waves.h:17-22 | a `uint16_t` field is stored as 2 bytes that read back as the same value |
| WavFormat.LE16OfFromLE16 | waves.h:17-22 | every 2-byte string is the stored form of the value it reads as |
| WavFormat.MultiCharBytes | waves.h:11-24 | a four-character literal such as `'FFIR'`, stored little-endian, shows its characters in reverse order |
| WavFormat.TagsReadForwards | waves.h:11-24 | the literals `'FFIR'`, `'EVAW'`, `' tmf'` and `'atad'` appear in the file as the bytes of `RIFF`, `WAVE`, `fmt ` and `data` |
| WavFormat.BlockSizeIsFrameBytes | waves.h:18-22 | the fixed block size 2 equals channels times bits per sample over 8 |
| WavFormat.Serialize | waves.h:8-27 | the packed struct occupies exactly `sizeof(wavHeader)` = 44 bytes |
| WavFormat.SerializeLayout | waves.h:8-27 | each of the 13 fields lies at its packed offset (0, 4, 8, 12, 16, 20, 22, 24, 28, 32, 34, 36, 40) in its little-endian form |
| WavFormat.ParseSerialize | waves.h:8-27 | decoding the 44 written bytes gives back every field of the header |
| WavFormat.SerializeParse | waves.h:8-27 | every 44-byte string is the image of the header it decodes to, so the encoding is a bijection |
| WavFormat.Blank | waves.h:11-24 | a freshly declared `wavHeader` has the default tags, fmt size 16, PCM format 1, one channel, block size 2 and 16 bits |
| WavFormat.MultiChar | waves.h:11-24 | GCC's value of a four-character literal has its first character as the most significant byte and its last as the least |
| WavFormat.Parse | waves.h:8-27 | reads the 13 fields back from their packed offsets; ParseSerialize and SerializeParse make it the inverse of `Serialize` |
| WavFormat.FixedFieldBytes | waves.h:11-24 | a header with the default field values has the four tags, fmt size 16, PCM format 1, 1 channel, block size 2 and 16 bits at their bytes |
| WaveFile.ToU32 | waves.cpp:31-36 | assigning an in-range integer to a `uint32_t` field keeps its value |
| WaveFile.SampleScaleIs16384 | waves.cpp:42 | `pow(2, bitsPerSample - 2)` with 16 bits per sample is 16384 |
| WaveFile.ToInt16 | waves.cpp:43 | converting a double to `int16_t` truncates toward zero and lands in [-32768, 32767] |
| WaveFile.EncodeI16 | waves.cpp:43-46 | an `int16_t` lies in memory as two bytes that read back as it |
| WaveFile.PcmBytesAt | waves.cpp:46 | sample i of the `int16_t` vector occupies bytes 2i and 2i+1 of what is written |
| WaveFile.ExportHeaderFields | waves.cpp:30-36 | the header `toWav` fills has the fixed fields, sampleRate = rate, bytesPerSec = 2·rate = rate·blockSize, dataSize = 2·n and fileSize = 2·n + 42 |
| WaveFile.DataSizeAtMost | waves.cpp:35-46 | the data size never exceeds the bytes of the sample vector, so the write at line 46 stays inside it |
| WaveFile.Scaled | waves.cpp:42 | each sample is multiplied by 2^14 |
| WaveFile.Pcm | waves.cpp:42-43 | the written samples are the truncations of ys[i]·2^14, one per sample |
| WaveFile.WavBytesPrefix | waves.cpp:39-46 | the stream is 44 header bytes followed by 2 bytes per sample, and its first 44 bytes are the serialised header |
| WaveFile.WavBytesHeader | waves.cpp:29-39 | the first 44 bytes of the file decode to the header with rate, 2·rate, 2·n and 2·n + 42 |
| WaveFile.WavBytesTags | waves.cpp:29-39 | the file reads `RIFF`, `WAVE`, `fmt ` and `data` at offsets 0, 8, 12 and 36, with the rate at 24 and the data size 2·n at 40 |
| WaveFile.WavBytesSamples | waves.cpp:41-46 | bytes 44+2i and 45+2i decode as the truncation of ys[i]·2^14 |
| WaveFile.FileSizeFieldIsLengthMinusTwo | waves.cpp:36 | the file size field is the file length minus 2, i.e. 6 more than the RIFF chunk size the length implies |
| WaveFile.Wave.constructor | waves.cpp:12-17 | the new wave holds the given samples, rate and duration |
| WaveFile.Wave.ToWav | waves.cpp:20-49 | when the file cannot be opened the export fails for any samples and rate, and `ys` is unchanged; otherwise the header and samples are written and `ys` is left scaled by 2^14 |
| WaveFile.ExportHeader | waves.cpp:30-36 | the header `toWav` fills keeps every default field (tags, PCM format, one channel, block size 2, 16 bits) and holds a non-negative rate as its sample rate |
| WaveFile.Int16Vector | waves.cpp:43 | the `int16_t` vector has one element per sample, each the truncation of the sample toward zero and inside the `int16_t` range |
| WaveFile.PcmBytes | waves.cpp:46 | the memory image of the vector is two bytes per sample |
| WaveFile.WavBytes | waves.cpp:39-46 | what `toWav` writes is at least the 44 header bytes and at most two more bytes per sample (fewer only if the data size wrapped) |
| WaveFile.WavBytesEmpty | waves.cpp:35-46 | a wave with no samples is written as the 44 header bytes alone |
| MathUtil.Trunc | waves.cpp:237 | a cast to an integer rounds toward zero: same sign, no larger in magnitude, less than 1 away |
| MathUtil.Fractional | waves.cpp:235-238 | n minus its truncation lies in (-1, 1), has the sign of n, and differs from n by an integer |
| MathUtil.Sign | waves.cpp:241-246 | the result is -1, 0 or 1; it is 0 exactly when n is 0 and negative exactly when n is negative; sign times n is abs n |
| MathUtil.Clamp | waves.cpp:249-252 | the result is never below min; it is at most max when min ≤ max; it is n inside the range, min below it, max above it, and min when the bounds cross |
| MathUtil.SumNonNegative | waves.cpp:222 | `valarray::sum` (`Sum`, the elements added in order) of non-negative samples is non-negative |
| MathUtil.Mean | waves.cpp:222 | the mean times the number of samples is their sum |
| MathUtil.Max | waves.cpp:229 | `valarray::max` of a non-empty array is one of its elements |
| MathUtil.Min | waves.cpp:230 | `valarray::min` of a non-empty array is one of its elements |
| MathUtil.MaxMinBound | waves.cpp:229-230 | no element is below `min()` or above `max()` (and both are elements) |
| MathUtil.UnbiasHasZeroMean | waves.cpp:220-224 | the unbiased array sums to 0 and has mean 0 |
| MathUtil.Unbias | waves.cpp:220-224 | bias removal keeps the length and every difference between samples |
| MathUtil.Peak | waves.cpp:229-231 | the divisor `max(abs(max), abs(min))` is positive whenever some sample is non-zero |
| MathUtil.PeakAsWritten | waves.cpp:229-231 | with `abs` bound to `int abs(int)` the divisor is a non-negative value no larger than the true peak |
| MathUtil.PeakAsWrittenVanishes | waves.cpp:229-231 | with `abs` bound to `int abs(int)` and every sample inside (-1, 1), the divisor is 0 |
| MathUtil.SawPeakAsWrittenIsZero | waves.cpp:201-231 | two saw samples with fractional cycles 0 and 0.5 unbias to -0.25 and 0.25, whose true peak is 0.25 but whose as-written divisor is 0 |
| MathUtil.Normalize | waves.cpp:227-232 | one output per sample; NormalizeIsUniformScaling and NormalizeReachesAmplitude give its values |
| MathUtil.PeakIsLargestMagnitude | waves.cpp:229-231 | `max(abs(max), abs(min))` bounds every sample's magnitude and is reached by one |
| MathUtil.NormalizeIsUniformScaling | waves.cpp:227-232 | normalisation multiplies every sample by the one factor amp / peak |
| MathUtil.NormalizeReachesAmplitude | waves.cpp:226-232 | after normalisation no sample exceeds abs amp, and some sample equals it in magnitude |
| Signals.Signal.constructor | waves.cpp:54-59 | the new signal has the given frequency, amplitude and offset and three empty modulator lists |
| Signals.Signal.AddMod | waves.cpp:82-102 | a destination outside 0..2 is rejected first, then an amount outside [0, 1], with the lists unchanged; otherwise the modulator is appended to its destination's list, the others are untouched, and all amounts stay in [0, 1] |
| Signals.ModSum | waves.cpp:118-121 | the weighted modulator outputs `evaluate(ts)[i] * (amount * scale)` summed in list order; Accumulate, SilentModSum and ModSumWithin state what it adds up to |
| Signals.Accumulate | waves.cpp:118-121 | after the loop each element is the start value plus the sum of every modulator's output times amount·scale |
| Signals.Modulated | waves.cpp:105-182 | a getter returns the base value everywhere when its list is empty, and values inside [lo, hi] otherwise |
| Signals.Signal.Freqs | waves.cpp:105-129 | frequencies are `freq` with no frequency modulators and lie in [20, 20000] with some |
| Signals.Signal.GetFreq | waves.cpp:105-129 | the fill, accumulation over semitones (scale 12), division by the count and clamp of `semiToFreq` give exactly `Freqs` |
| Signals.Signal.Amps | waves.cpp:132-156 | amplitudes are `amp` with no amplitude modulators and lie in [0, 1] with some |
| Signals.Signal.GetAmp | waves.cpp:132-156 | the accumulation with scale 1, division and clamp to [0, 1] give exactly `Amps` |
| Signals.Signal.Phases | waves.cpp:159-182 | phases are `off` with no phase modulators and lie in [0, 2π] with some |
| Signals.Signal.GetPhase | waves.cpp:159-182 | the accumulation with scale 2π, division and clamp to [0, 2π] give exactly `Phases` |
| Signals.SilentModulatorsDivide | waves.cpp:110-127 | modulators at amount 0 still change the result: the start value is divided by their count before conversion and clamping |
| Signals.ModulationBound | waves.cpp:82-121 | because `addMod` only lets in amounts in [0, 1], the modulators of any destination of a valid signal with outputs at most m add at most n·m·scale |
| Signals.ModSumWithin | waves.cpp:118-121 | n weighted outputs each at most c in magnitude add up to at most n·c in magnitude |
| Signals.ModSumBound | waves.cpp:118-121 | modulators whose outputs are at most m, with amounts in [0, 1], add at most n·m·scale to the start value |
| Signals.Fractions | waves.cpp:194-212 | each fractional cycle lies in (-1, 1) and is not negative for non-negative cycles |
| Signals.SineWithinAmplitude | waves.cpp:185-189 | with a cosine bounded by 1, no sine sample exceeds its amplitude in magnitude |
| Signals.UnmodulatedSine | waves.cpp:185-189 | without modulators sample i of a sine is amp·cos(2π·freq·t_i + off) |
| Signals.TriangleWithinAmplitude | waves.cpp:192-198 | no triangle sample exceeds its amplitude in magnitude, and one meets it |
| Signals.SawWithinAmplitude | waves.cpp:201-206 | no saw sample exceeds its amplitude in magnitude, and one meets it |
| Signals.SquareWave | waves.cpp:209-214 | every square sample is minus, zero or plus the amplitude at its time stamp |
| Signals.SquareLevels | waves.cpp:209-214 | the same for a square signal evaluated through its getters, modulators included |
| Signals.SineWave | waves.cpp:185-189 | one sample per time stamp; SineWithinAmplitude bounds it and UnmodulatedSine gives its value without modulators |
| Signals.TriangleWave | waves.cpp:192-198 | one sample per time stamp; TriangleWithinAmplitude bounds it by the amplitude |
| Signals.SawWave | waves.cpp:201-206 | one sample per time stamp; SawWithinAmplitude bounds it by the amplitude |
| Signals.Signal.Evaluation | waves.cpp:185-214 | what `evaluate` returns has one sample per time stamp, for every shape |
| Signals.Signal.Evaluate | waves.cpp:185-214 | `evaluate` returns the time stamps for the base class and the shape's composition of the getters otherwise |
| Signals.TimeBase | waves.cpp:70-73 | there are trunc(sampleRate·duration) time stamps and stamp i times the rate is i |
| Signals.TimeBaseWithinDuration | waves.cpp:70-73 | at a positive rate the stamps start at 0, are 1/rate apart and stay in [0, duration) |
| Signals.Signal.MakeWave | waves.cpp:68-76 | the new wave holds the signal evaluated on that time base, with the given rate and duration |

## Left out

- File output: opening, writing and closing the file are modelled as the byte sequence `toWav` writes. Failure to open becomes the flag `canOpen` and the result `CannotOpen` in place of the thrown `std::invalid_argument`.
- `addMod`'s exceptions are modelled as a `Rejected` outcome that leaves the lists unchanged.
- `main.cpp` (the demo driver) is not part of this model.
- `cos`, and the `std::pow` and `std::log` calls inside `semiToFreq` and `freqToSemi` (waves.cpp:255-264), have no model: those two functions come in as parameters, and `A4_TUNING` and `A4_INDEX` do not appear. The `pow(2, header.bitsPerSample - 2)` of waves.cpp:42 is modelled, by `Pow2` and `SampleScale`.
- Floating point: all arithmetic is exact. Rounding is absent, as is the `float` precision of `amp`, `off`, `dur` and `rate * duration`. `PI2` is the decimal value of the double `M_PI * 2`.
- Signals.Signal.AddMod: a NaN amount passes the source's range check, because every comparison with NaN is false; reals have no NaN.
- Pointers: a modulator names its source signal by index. Aliasing, dangling pointers, and a signal modulating itself through a cycle (which would not terminate) are outside the model. The caller's `evalMod` must return one value per time stamp.
- Undefined behaviour is excluded by preconditions rather than modelled:
  - `sum`, `max` and `min` of an empty `valarray`;
  - `normalize` of an all-zero array;
  - a double outside the `int16_t` range converted to it;
  - `rate * blockSize` overflowing `int`;
  - `int len = sampleRate * duration` out of range or negative.
- WaveFile.WavBytes: `&data[0]` on an empty vector (waves.cpp:46) is undefined in the source; the model writes nothing after the header in that case (WavBytesEmpty).
- waves.h:46-50 declares `int freq` and an `int` constructor. waves.cpp:54 defines the constructor with a `float` and uses `mods`, which that header does not declare. The model follows waves.cpp: the frequency is a real, and lines 82-214 supply the methods.
- MathUtil.Fractional: `(long)n` is assumed not to overflow. A cycle count beyond the `long` range is undefined in the source and unbounded here.
- WaveFile.Wave.ToWav: the stream is stated for any rate in [-2^30, 2^30), but its byte-level lemmas (WavBytesHeader, WavBytesTags, WavBytesSamples, FileSizeFieldIsLengthMinusTwo) assume that no header field wraps at 2^32.
- Signals.SineWithinAmplitude: the bound relies on `cos` staying within [-1, 1]. That is stated as a precondition because `cos` is a parameter.
- MathUtil.Peak: `abs` on a double is taken to be the floating-point absolute value, as with libc++, where `<cmath>` declares `abs(double)` in the global namespace. See Findings for the `int abs(int)` reading.

## Findings

| source | as written | input that shows it | evidently intended | confidence | as-written member | corrected member |
|---|---|---|---|---|---|---|
| waves.cpp:229-231 | `abs(ys.max())` and `abs(ys.min())` call an unqualified `abs` on a double with only `<cmath>` included; where `<cmath>` keeps `abs(double)` out of the global namespace (libstdc++), this is C's `int abs(int)`, which truncates each extreme | a saw whose fractional cycles are 0 and 0.5: unbiased to -0.25 and 0.25, both extremes truncate to 0, so `normalize` divides by 0 | the floating-point magnitude (`std::abs` or `fabs`) | medium, depends on the standard library; not executed | MathUtil.SawPeakAsWrittenIsZero | MathUtil.PeakIsLargestMagnitude |
