# MAS training audio generator — Dafny model

This project models the core of the MAS (multi-stage aerobic shuttle) training audio
generator and proves properties of it. The core has four parts.

- **Configuration** (`Config`). A validating constructor checks six positive fields in a
  fixed order and then checks that the maximum speed is at least the initial one. It
  defaults the cache directory and derives the initial speed in m/s.
- **Interval progression** (`Intervals`). Fixed-distance intervals are built front to back.
  Each one is derived from its predecessor. The speed rises by the increment after every
  stage-ending interval. Generation stops at the first interval faster than the maximum,
  or at 100 intervals.
- **Audio utilities and the timeline** (`Samples`, `Audio`).
  - The sample helpers are silence, the enveloped harmonic tone, 16-bit clipping and
    little-endian packing, stereo downmix and linear-interpolation resampling.
  - The three cache-mediated clip generators are beep, triple beep and voice
    announcement.
  - The timeline builder lays out an intro, a countdown and a start beep, then one
    step per interval: an optional announcement, silence padding and a beep block.
- **Clip cache** (`Cache`). The class `AudioCache` keeps an in-memory map that is loaded
  once, lazily, from a persisted file and written back whole after each insertion. It
  has enabled and disabled modes. Keys are digests of `prefix:arg:arg…`.

Numbers are modelled as follows.
- Speeds, durations and times are exact `real`s, and sample values are unbounded `int`s.
- Python's `int()` truncates toward zero: `Samples.Trunc`.
- `[0] * n` with a negative `n` is empty: `Samples.SampleCount`.
- `// 2` is floor division. It agrees with Dafny's `/` by 2.

Collaborators that are not part of the core are passed in as fields of `Audio.Env`:
- `sine`: the sine over the tone's phase, in cycles;
- `speak`: the speech engine, including the WAV file it leaves behind;
- `numberText`: `str()` of a number;
- `speedText`: the `{:.1f}` formatting;
- `md5`: the MD5 hex digest.

The persisted pickle file is a `Cache.CacheFile` object. Its `contents` is `Missing`,
`Corrupt` or `Saved(map)`. Two `AudioCache` objects over the same `CacheFile` stand for
two runs over the same cache directory.

Caching is described in two layers.
- **One lookup.** Each generator returns `Audio.Served`: the stored clip on a hit,
  whatever it holds, and otherwise `Audio.Uncached`, which is the synthesised clip or the
  silence fallback. Its effect on the cache is `Audio.Outcome`. Only an enabled miss whose
  synthesis succeeds inserts the clip, and then the whole map is persisted.
- **Transparency.** A cache is transparent from a *sound* start (`Audio.Sound`).
  - The issued requests are all triple-beep and voice requests, plus the beeps of the
    given tones (`Audio.Issued`). The timeline issues only the 0.5 s, 220 Hz beep.
  - Sound means no two issued requests share a key (`Audio.KeysDistinct`).
  - It also means every cached clip of an issued request, in memory and on file, is what
    synthesising it gives (`Audio.Coherent`).
  - `Audio.KeysDistinctFromDigest` derives distinct keys from two facts: an injective
    digest, and issued tones that print as distinct colon-free numbers.
  - `Audio.SoundExists` exhibits an environment that is sound.
- **The builder.** The builder methods state how the cache evolves in every case
  (`Audio.Run`). Entries are only added. The file is either untouched or holds the whole
  map. Soundness is kept. They also state which keys an enabled cache ends up holding.
  Without a cache, with a disabled one, or from a sound start (`Audio.Transparent`), the
  audio they build is the timeline.

The model follows the code where the code and its docstrings disagree:
- **Odd-length frames.** The frame-unpacking call raises on an odd byte count. The
  surrounding handler then substitutes 2 s of silence (`Audio.Speak`).
- **Zero original rate.** Resampling from rate 0 divides by zero, which also ends in
  silence (`Samples.Resampled`).
- **Iteration ceiling.** The docstring of `generate_intervals` says it raises at the
  iteration ceiling. The code only logs a warning and returns the list
  (`Intervals.GenerateIntervals`).

Two further behaviours of the code are stated explicitly:
- **Empty TTS output.** The code has no zero-length check. An engine that renders an empty
  file at 44100 Hz yields an empty clip, which is returned and cached instead of the
  silence fallback (`Audio.EmptySpeechKept`).
- **First interval.** For 8 km/h, 50 m, T = 60 s and tolerance 9 s, the first interval
  lasts 22.5 s and does not end a stage (`Intervals.FirstIntervalExample`).

## Model

| member | source | states |
|---|---|---|
| Config.ValidatePositive | src/config.py:115-118 | no error exactly when the value is positive; the error names the field |
| Config.CacheDirOrDefault | src/config.py:107 | a non-empty given directory is kept; None or "" gives ".cache"; the result is never empty |
| Config.NewConfig | src/config.py:55-110 | for each field, the error names it exactly when it is the first non-positive one in declaration order; MaxBelowInit exactly when all are positive and max < init (max == init accepted); success exactly otherwise, with every argument stored unchanged, m/s speed times 3.6 equal to the km/h speed, and the defaulted cache directory |
| Config.DefaultsApply | src/config.py:63-64 | every configuration built successfully without the optional arguments has caching on and cache directory ".cache" |
| Intervals.DurationFromSpeedAndDistance | src/intervals.py:63-67 | fails exactly when speed <= 0, carrying that speed; otherwise duration × speed = distance, positive for a positive distance |
| Intervals.MoveToNextStage | src/intervals.py:157-160 | an in-stage end time past T always ends the stage; with a non-positive tolerance, exactly such times do |
| Intervals.MoveToNextStageEarly | src/intervals.py:157-160 | with a positive tolerance the stage rule holds exactly when the in-stage end time exceeds T − tolerance |
| Intervals.MoveToNextStageExamples | src/intervals.py:157-160 | with T = 60 and tolerance 5: 65 and 58 end a stage; 50 and 55 do not |
| Intervals.InitialInterval | src/intervals.py:85-99 | fails exactly for a non-positive initial m/s speed; otherwise all start values are zero, end totals equal its own duration and distance, duration × speed = distance, km/h speed equals the configured one under a valid config, and the stage flag is the stage rule |
| Intervals.NextInterval | src/intervals.py:115-142 | fails exactly when the next speed is non-positive; otherwise the speed rises by the increment iff the predecessor ended a stage, totals carry forward from the predecessor's ends, end = start + own duration and distance, in-stage time restarts after a stage end and accumulates otherwise, and the stage flag is the stage rule |
| Intervals.GenerateIntervals | src/intervals.py:177-199 | any success is a chain of 1..100 intervals in which all but the last are at most the maximum and, below 100 intervals, the last exceeds it; a valid configuration never fails |
| Intervals.ChainDistance | src/intervals.py:129-134 | interval i starts at i × distance and ends at (i + 1) × distance |
| Intervals.ChainSpeedAtLeastInitial | src/intervals.py:118-128 | under a valid configuration every speed is at least the initial one and every duration is positive |
| Intervals.ChainTimeIncreasing | src/intervals.py:129-131 | cumulative end time strictly increases along the chain |
| Intervals.ChainRecurrence | src/intervals.py:85-142 | a chain starts at the initial speed and follows the stage recurrence |
| Intervals.ChainSpeedClosedForm | src/intervals.py:118-122 | interval k runs at initial speed + (stage ends before k) × increment |
| Intervals.ChainSpeedSteps | src/intervals.py:118-122 | consecutive speeds differ iff the first interval ends a stage, and then by exactly the increment |
| Intervals.ScheduleSpeedBound | src/intervals.py:184-191 | every generated speed is at most max + increment |
| Intervals.ScheduleHasTwo | src/intervals.py:180-191 | under a valid configuration the schedule has at least two intervals, the first at the initial speed |
| Intervals.FirstIntervalExample | src/intervals.py:85-99 | for 8 km/h, 50 m, T = 60 s, tolerance 9 s: the first interval lasts 22.5 s, ends at 50 m and does not end a stage |
| Samples.Trunc | src/audio.py:69 | Python int(): the greatest integer at most x for x >= 0, the least at least x below 0 |
| Samples.SampleCount | src/audio.py:43 | floor(duration × 44100) for a non-negative duration, 0 for a non-positive one |
| Samples.Silence | src/audio.py:88 | exactly SampleCount(duration) samples, all zero |
| Samples.Envelope | src/audio.py:61-67 | the attack/sustain/release envelope: a linear 882-sample rise, a linear 2205-sample fall, 1 in between; its bound is `Samples.EnvelopeBounds` |
| Samples.EnvelopeBounds | src/audio.py:61-67 | the attack/sustain/release envelope stays within [0, 1] on every sample of the tone |
| Samples.GenerateSineWave | src/audio.py:42-71 | the loop's samples are the tone value: sample i is int(amplitude × harmonic tone at i/44100 × envelope) |
| Samples.SineWave | src/audio.py:43-47 | the tone has SampleCount(duration) samples |
| Samples.ScaledFits | src/audio.py:69 | a tone within the harmonics' peak 1.53 under an envelope in [0, 1] scales to at most 15300 in magnitude |
| Samples.ToneFitsSixteenBits | src/audio.py:52-69 | with a sine bounded by 1 every tone sample is within ±15300, so clipping leaves it unchanged |
| Samples.Clamp16 | src/audio.py:344-349 | the result is in [−32768, 32767]; in-range samples are unchanged; others go to the nearer limit |
| Samples.ClipSamples | src/audio.py:342-349 | same length; each sample clamped |
| Samples.EncodeSample | src/audio.py:352-353 | two bytes, low byte first, whose little-endian value is the sample modulo 2^16 (two's complement) |
| Samples.DecodeSample | src/audio.py:230-231 | the result is the signed 16-bit value congruent, modulo 2^16, to low + 256 × high |
| Samples.DecodeEncode | src/audio.py:230-231 | decoding an encoded in-range sample gives it back |
| Samples.EncodeDecode | src/audio.py:352-353 | encoding a decoded byte pair gives the bytes back |
| Samples.Pack16 | src/audio.py:352-353 | 2n bytes for n in-range samples; bytes 2i and 2i + 1 encode sample i |
| Samples.Unpack16 | src/audio.py:229-235 | n/2 in-range samples for n (even) bytes; sample i decodes bytes 2i and 2i + 1 |
| Samples.UnpackPack | src/audio.py:352-353 | unpacking packed in-range samples gives the samples back |
| Samples.PackUnpack | src/audio.py:229-231 | packing unpacked bytes gives the bytes back |
| Samples.EncodeWavFrames | src/audio.py:342-353 | the frames hold two bytes per sample, and unpacking them gives the clipped samples |
| Samples.Downmixed | src/audio.py:236-245 | the mono buffer has ceil(n / 2) samples |
| Samples.DownmixedAt | src/audio.py:237-245 | element k is floor((s[2k] + s[2k+1]) / 2), and a trailing odd sample is copied |
| Samples.DownmixToMono | src/audio.py:236-245 | the downmix loop computes the downmix |
| Samples.PositionBelowLength | src/audio.py:296-301 | every fractional source position lies in [0, n) |
| Samples.LowerIndex | src/audio.py:303 | the floor index is within bounds |
| Samples.UpperIndex | src/audio.py:304 | the ceiling index is within bounds |
| Samples.Resampled | src/audio.py:293-316 | equal rates return the input unchanged; otherwise a zero original rate fails and any other gives exactly int(len × ratio) samples |
| Samples.BlendBetween | src/audio.py:309-313 | a blend with weight in [0, 1] lies between its end points |
| Samples.ResampleAt | src/audio.py:300-314 | output sample i: source position i × original / target, the two bracketing samples blended by its fractional part; bounded by `Samples.ResampleAtBracketed` |
| Samples.ResampleAtBracketed | src/audio.py:300-314 | output sample i lies between its two bracketing source samples, which are adjacent or the same last one |
| Samples.ResampleBracketed | src/audio.py:293-316 | the same for every sample of the resampled buffer |
| Samples.ResampleAudio | src/audio.py:293-316 | the loop computes the resampled buffer |
| Cache.CacheFile.constructor | src/audio_cache.py:49-52 | a persisted file with the given contents |
| Cache.LoadedFrom | src/audio_cache.py:43-58 | what loading makes of the map: a missing file keeps it, an unreadable one empties it, a saved one replaces it; used by `Cache.AudioCache.Load` |
| Cache.KeyString | src/audio_cache.py:86 | the pre-hash string starts with prefix + ":" |
| Cache.SplitAtColon | src/audio_cache.py:86 | two colon-free heads joined to tails by ":" are equal iff heads and tails are |
| Cache.JoinInjective | src/audio_cache.py:86 | joining colon-free strings of one arity by ":" is injective |
| Cache.KeyStringInjective | src/audio_cache.py:86 | for colon-free parts of one arity, pre-hash strings are equal iff prefix and arguments are |
| Cache.KeyStringPrefixesDiffer | src/audio_cache.py:86 | different colon-free prefixes never give the same pre-hash string |
| Cache.GenerateKeyInjective | src/audio_cache.py:86-87 | with an injective digest, keys of colon-free parts of one arity are equal iff prefix and arguments are |
| Cache.AudioCache.GenerateKey | src/audio_cache.py:86-87 | the digest of prefix + ":" + the arguments joined by ":"; when keys coincide is `Cache.GenerateKeyInjective` |
| Cache.AudioCache.constructor | src/audio_cache.py:27-30 | stores the directory, file and enabled flag; the map is empty and not loaded |
| Cache.AudioCache.Load | src/audio_cache.py:43-58 | loads at most once and only when enabled: a missing file keeps the map, an unreadable one empties it, a saved one replaces it; what lookups see does not change |
| Cache.AudioCache.Save | src/audio_cache.py:62-70 | an enabled cache writes its whole map to the file; a disabled one leaves the file |
| Cache.AudioCache.Get | src/audio_cache.py:99-105 | returns the stored samples of the key or None; a disabled cache returns None and changes nothing; an enabled one is loaded afterwards |
| Cache.AudioCache.Set | src/audio_cache.py:115-120 | disabled: nothing changes; enabled: loaded, the key maps to the samples, all other keys keep their entries, and the file holds exactly the in-memory map |
| Cache.AudioCache.Clear | src/audio_cache.py:124-131 | empties the map and removes the file, enabled or not; lookups then see nothing |
| Cache.AudioCache.Size | src/audio_cache.py:135-136 | the number of keys a lookup can find; 0 when disabled |
| Cache.SetThenGet | src/audio_cache.py:103-104 | after set(k, s) a lookup of k gives s; another key's answer is unchanged |
| Cache.PersistAcrossInstances | src/audio_cache.py:51-52 | a second cache over the same file finds what the first stored, and keeps entries persisted before |
| Cache.DisabledIsInert | src/audio_cache.py:99-100 | a disabled cache answers None, reports size 0 and never changes the file |
| Cache.ClearEmpties | src/audio_cache.py:122-136 | after clear nothing is found and size is 0, in this cache and in a later one over the same file |
| Audio.Beep | src/audio.py:116 | the beep has SampleCount(duration) samples |
| Audio.TripleBeep | src/audio.py:143-148 | 3 × int(0.2 × 44100) + 2 × int(0.1 × 44100) samples |
| Audio.TripleBeepLayout | src/audio.py:143-148 | 35280 samples: 8820-sample tones at 0, 13230 and 26460; zeros in between |
| Audio.Speak | src/audio.py:213-274 | None (the silence fallback) exactly for no output, an engine failure, an odd byte count or a zero rate; at 44100 Hz the clip has n/2 samples for mono, ceil(n/4) otherwise |
| Audio.VoiceSamples | src/audio.py:185-274 | the speech clip, or 2 s (88200 samples) of silence when the speech path fails |
| Audio.EmptySpeechKept | src/audio.py:218-263 | an empty rendered file at 44100 Hz gives an empty clip, not silence |
| Audio.Fresh | src/audio.py:107-153 | tone requests always synthesise; only speech can fail |
| Audio.Uncached | src/audio.py:115-274 | without a cache a generator returns the synthesised clip, or the 2 s silence fallback exactly when synthesis fails |
| Audio.KeyOf | src/audio.py:107-175 | the cache key of each request: "beep" with the printed duration and frequency, "triple_beep" alone, "voice" with the text |
| Audio.Served | src/audio.py:109-113 | what a generator returns given its lookup map: the stored clip on a hit, whatever it is, else the uncached clip |
| Audio.KeysDistinctFromDigest | src/audio.py:107-175 | with an injective digest, and issued tones printing as distinct colon-free numbers, no two issued requests share a key |
| Audio.DefaultKeysDistinct | src/audio.py:107-175 | for the timeline's single tone an injective digest and colon-free number texts suffice |
| Audio.SoundExists | src/audio.py:107-175 | some environment with an empty cache and no file is sound |
| Audio.CoherentServesFresh | src/audio.py:109-121 | on a coherent map a lookup of an issued request serves exactly the uncached clip |
| Audio.Outcome | src/audio.py:109-121 | one lookup-or-synthesise: an enabled miss that synthesises inserts the clip and persists the whole map; anything else changes nothing |
| Audio.OutcomeGrows | src/audio.py:109-121 | a lookup only adds entries and leaves the file untouched or holding the whole map; on an enabled cache a successful synthesis leaves its key present |
| Audio.OutcomeKeepsReady | src/audio.py:117-119 | with distinct keys, a lookup of an issued request keeps a coherent map and file coherent |
| Audio.GrowsTrans | src/audio.py:376-481 | growth of the cache composes over successive lookups |
| Audio.RunTrans | src/audio.py:376-481 | growth that keeps soundness composes |
| Audio.Advance | src/audio.py:376-481 | one more lookup continues a run; without an enabled cache or from a sound start it serves the uncached clip |
| Audio.GenerateBeep | src/audio.py:107-121 | returns the stored clip on an enabled hit, whatever it is, and the synthesised tone otherwise; an enabled miss inserts the tone and persists the map; otherwise nothing changes |
| Audio.GenerateTripleBeep | src/audio.py:134-153 | the same discipline for the triple beep |
| Audio.GenerateVoiceAnnouncement | src/audio.py:175-274 | the same discipline for speech; the silence fallback is returned but never cached |
| Audio.Countdown | src/audio.py:387-398 | the countdown lasts at least one second per number |
| Audio.Prefix | src/audio.py:380-411 | intro, countdown, 1 s pause and the start beep, as a value; its layout is `Audio.PrefixLayout` |
| Audio.PrefixLayout | src/audio.py:380-407 | the prefix starts with the intro, lasts at least intro + 5 s + beep, and ends with 1 s of silence then the start beep |
| Audio.PadTo | src/audio.py:460-464 | extends with zeros only; the length is floor(target × 44100) when that is past the buffer, else unchanged |
| Audio.PadToReaches | src/audio.py:460-464 | a padded buffer reaches the sample at the target time |
| Audio.Announces | src/audio.py:422-430 | the announcement guard: stage end, not the last interval, announcement time after time zero; simplified by `Audio.AnnouncesWhen` |
| Audio.AnnouncesWhen | src/audio.py:422-430 | an announcement happens iff the interval ends a stage, is not last and ends more than 10 s into the test |
| Audio.Announced | src/audio.py:422-458 | extends the buffer; without an announcement it is unchanged; otherwise only zeros are added before the next interval's speed announcement, which ends the buffer and starts no earlier than the sample 10 s before the interval's end |
| Audio.Step | src/audio.py:413-479 | a step only extends the buffer |
| Audio.StepLayout | src/audio.py:460-479 | a step keeps the announcement part and ends with exactly one beep block, which starts no earlier than the interval's end sample |
| Audio.AssembledExtends | src/audio.py:413 | a fold of extending steps never rewinds |
| Audio.AssembledPrefixes | src/audio.py:413-481 | the final buffer extends the start and every intermediate buffer |
| Audio.AssembledBlock | src/audio.py:460-479 | after i + 1 steps the buffer ends with interval i's block, starting no earlier than its end sample |
| Audio.Timeline | src/audio.py:376-481 | the prefix followed by one step per interval, times relative to the end of the prefix; its layout is `Audio.TimelineLayout` |
| Audio.TimelineLayout | src/audio.py:376-481 | the timeline starts with the prefix, and interval i's block (a triple beep iff it ends a stage) starts no earlier than its end sample past time zero |
| Audio.BlockKeysHeld | src/audio.py:470-479 | the closing-clip key set of the first n intervals holds exactly their keys |
| Audio.SpokenKeysHeld | src/audio.py:387-398 | the spoken key set holds exactly the keys of the numbers whose speech succeeds |
| Audio.CreateAudioTimeline | src/audio.py:376-481 | the cache only gains entries, and its file is untouched or holds the whole map; an enabled cache ends up holding the start beep and every interval's closing clip; without a cache, with a disabled one or from a sound start the result is the timeline, and soundness is kept |
| Audio.TimelineWithoutCache | src/audio.py:376-481 | with no cache the builder always returns the timeline |
| Audio.AppendPrefix | src/audio.py:380-407 | the same cache evolution; an enabled cache holds the start beep, the countdown numbers spoken and the intro if spoken; without an enabled cache or from a sound start the result is the prefix |
| Audio.AppendCountdown | src/audio.py:387-398 | the same cache evolution; an enabled cache holds every number whose speech succeeds; without an enabled cache or from a sound start it appends the countdown |
| Audio.CountdownStep | src/audio.py:388-398 | one iteration extends the countdown by one pause and one number |
| Audio.AppendIntervals | src/audio.py:413-479 | the same cache evolution; an enabled cache holds every interval's closing clip; without an enabled cache or from a sound start it performs the fold of steps |
| Audio.AppendInterval | src/audio.py:413-479 | the same cache evolution; an enabled cache holds the interval's closing clip and its announcement if spoken; without an enabled cache or from a sound start it computes one step |
| Audio.AppendAnnouncement | src/audio.py:422-458 | the same cache evolution; an enabled cache holds the announcement if spoken; without an enabled cache or from a sound start it computes the announcement part |
| Audio.GenerateBlock | src/audio.py:470-479 | the closing clip through the cache: the triple beep at a stage end, else the tone, with the generators' discipline |
| Audio.BlockUncached | src/audio.py:470-479 | without a cache the closing request yields the step's beep block |
| Audio.IntervalClosed | src/audio.py:460-479 | the padded announcement part followed by the uncached closing clip is one step |

## Left out

- The speech engine's setup, voice selection, temp-file naming and deletion, and the WAV reader: the engine and its output file are the opaque `Env.speak`, which yields a rendered file's frames, rate and channels, no file, or a failure.
- The 16-bit sample width of the speech file is assumed and not checked, as in the code.
- The WAV container and the writing of the output file: only the clipping and the frame bytes are modelled. Write failures are not modelled.
- Pickle serialisation, directory creation, and read, write and remove failures in the cache: the file is a `CacheFile` whose contents is `Missing`, `Corrupt` or `Saved`. Save and remove are assumed to succeed.
- The MD5 digest and Python's `str()` of numbers: these are the opaque `Env.md5` and `Env.numberText`.
- Audio.CreateAudioTimeline, Audio.AppendPrefix, Audio.AppendCountdown, Audio.AppendIntervals, Audio.AppendInterval, Audio.AppendAnnouncement: on an enabled cache, the audio they build is characterised only from a sound start. An enabled cache holding clips unlike fresh synthesis, or a digest collision between issued requests, is described lookup by lookup (each generator returns `Audio.Served`, the stored clip), and how the cache evolves is stated in every case, but the assembled buffer is then not described.
- Copy-on-get and copy-on-set: Dafny sequences are values, so callers cannot alias the stored copy.
- Samples.SineWave: sin is the opaque `Env.sine`, so only the tone's length, the formula and, for a bounded sine, its ±15300 bound are stated. The actual waveform is not.
- The announcement's `{:.1f}` speed text is the opaque `Env.speedText`.
- IEEE floating point: all arithmetic is exact. In particular, (x / 3.6) × 3.6 == x holds, and rounding effects on padding lengths and stage decisions are not captured.
- Audio.Countdown: only a lower bound on the length (one second per number) is stated. Its exact layout follows from its definition and from `Audio.PrefixLayout`.
- `generate_audio_file`, `print_intervals_table`, the logging calls and the CLI entry points are not modelled: they are plumbing and console output.
- The environment-variable helpers `is_cache_enabled` and `get_cache_directory` are not modelled: they read process state.
- The legacy `mas.py` script is not part of this model.
