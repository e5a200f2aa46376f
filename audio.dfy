/** Cache-mediated clip generators and the timeline builder of the audio module
    (src/audio.py). The tone's sine, the speech engine, number and speed formatting and
    the MD5 digest are opaque collaborators, passed in as an environment. */
module Audio {
  import opened Wrappers
  import opened Constants
  import opened Samples
  import opened Cache
  import Intervals

  /** What the speech engine leaves behind for a text: a WAV file's raw frames with its
      rate and channel count, no file at all, or an exception. */
  datatype Speech =
    | Rendered(frames: seq<Byte>, rate: nat, channels: nat)
    | NoOutput
    | EngineFailed

  /** The collaborators: `math.sin` over the tone's phase in cycles, the TTS engine,
      `str()` of a float, `f"{speed:.1f}"`, and the hex MD5 digest. */
  datatype Env = Env(
    sine: real -> real,
    speak: string -> Speech,
    numberText: real -> string,
    speedText: real -> string,
    md5: string -> string)

  /** The three kinds of cached clip. */
  datatype Request =
    | BeepRequest(duration: real, frequency: real)
    | TripleBeepRequest
    | VoiceRequest(text: string)

  // ---------------------------------------------------------------- uncached clips

  /** `generate_sine_wave(duration, frequency)`. */
  function Beep(env: Env, duration: real, frequency: real): (r: seq<int>)
    ensures |r| == SampleCount(duration)
  {
    SineWave(env.sine, duration, frequency)
  }

  /** beep + pause + beep + pause + beep, from 0.2 s tones and 0.1 s silences. */
  function TripleBeep(env: Env): (r: seq<int>)
    ensures |r| == 3 * SampleCount(TripleBeepDuration) + 2 * SampleCount(TripleBeepPause)
  {
    var beep := Beep(env, TripleBeepDuration, BeepFrequency);
    var pause := Silence(TripleBeepPause);
    beep + pause + beep + pause + beep
  }

  /** Where the three tones and two pauses sit: 8820-sample tones, 4410-sample pauses. */
  lemma TripleBeepLayout(env: Env)
    ensures |TripleBeep(env)| == 35280
    ensures var tone := Beep(env, TripleBeepDuration, BeepFrequency);
      && |tone| == 8820
      && TripleBeep(env)[..8820] == tone
      && TripleBeep(env)[13230..22050] == tone
      && TripleBeep(env)[26460..] == tone
      && (forall k :: 8820 <= k < 13230 ==> TripleBeep(env)[k] == 0)
      && (forall k :: 22050 <= k < 26460 ==> TripleBeep(env)[k] == 0)
  {
    var tone := Beep(env, TripleBeepDuration, BeepFrequency);
    var pause := Silence(TripleBeepPause);
    assert |tone| == 8820 && |pause| == 4410;
    assert TripleBeep(env) == tone + pause + tone + pause + tone;
  }

  /** The samples the speech path yields for a text, or None where the source falls back
      to silence: no output file, an engine exception, an odd number of frame bytes
      (struct.unpack raises) or a zero original rate (the resampler divides by it). */
  function Speak(env: Env, text: string): (r: Option<seq<int>>)
    ensures env.speak(text).NoOutput? || env.speak(text).EngineFailed? ==> r.None?
    ensures env.speak(text).Rendered? ==>
      (r.None? <==> |env.speak(text).frames| % 2 != 0 || env.speak(text).rate == 0)
    ensures env.speak(text).Rendered? && env.speak(text).rate == SampleRate && r.Some? ==>
      |r.value| == if env.speak(text).channels == 1 then |env.speak(text).frames| / 2
                   else (|env.speak(text).frames| / 2 + 1) / 2
  {
    match env.speak(text)
    case NoOutput => None
    case EngineFailed => None
    case Rendered(frames, rate, channels) =>
      if |frames| % 2 != 0 then None
      else
        var pcm := Unpack16(frames);
        var mono := if channels == 1 then pcm else Downmixed(pcm);
        if rate != SampleRate then Resampled(mono, rate, SampleRate) else Some(mono)
  }

  /** `generate_voice_announcement` without a cache: the speech, or 2 s of silence. */
  function VoiceSamples(env: Env, text: string): (r: seq<int>)
    ensures Speak(env, text).None? ==> r == Silence(SilenceFallback) && |r| == 88200
    ensures Speak(env, text).Some? ==> r == Speak(env, text).value
  {
    match Speak(env, text)
    case None => Silence(SilenceFallback)
    case Some(s) => s
  }

  /** An engine that renders an empty file at the canonical rate yields an empty clip, not
      the silence fallback: the code has no zero-length check. */
  lemma EmptySpeechKept(env: Env, text: string, channels: nat)
    requires env.speak(text) == Rendered([], SampleRate, channels)
    ensures Speak(env, text) == Some([])
    ensures VoiceSamples(env, text) == []
  {
    assert Unpack16([]) == [];
  }

  /** What synthesising a request from scratch yields; None only for failed speech,
      which is never cached. */
  function Fresh(env: Env, request: Request): (r: Option<seq<int>>)
    ensures !request.VoiceRequest? ==> r.Some?
  {
    match request
    case BeepRequest(d, f) => Some(Beep(env, d, f))
    case TripleBeepRequest => Some(TripleBeep(env))
    case VoiceRequest(text) => Speak(env, text)
  }

  /** What a generator returns without a cache: the fresh clip, or the silence fallback. */
  function Uncached(env: Env, request: Request): (s: seq<int>)
    ensures Fresh(env, request).Some? ==> s == Fresh(env, request).value
    ensures Fresh(env, request).None? ==> s == Silence(SilenceFallback)
  {
    match request
    case BeepRequest(d, f) => Beep(env, d, f)
    case TripleBeepRequest => TripleBeep(env)
    case VoiceRequest(text) => VoiceSamples(env, text)
  }

  /** The cache key of a request, as each generator builds it. */
  function KeyOf(env: Env, request: Request): string
  {
    match request
    case BeepRequest(d, f) =>
      AudioCache.GenerateKey(env.md5, "beep", [env.numberText(d), env.numberText(f)])
    case TripleBeepRequest => AudioCache.GenerateKey(env.md5, "triple_beep", [])
    case VoiceRequest(text) => AudioCache.GenerateKey(env.md5, "voice", [text])
  }

  /** What a generator returns given the map its lookup consults: the stored clip on a hit,
      whatever it is, and the uncached clip otherwise. */
  function Served(env: Env, request: Request, view: map<string, seq<int>>): seq<int>
  {
    if KeyOf(env, request) in view then view[KeyOf(env, request)] else Uncached(env, request)
  }

  // ---------------------------------------------------------------- cache discipline

  /** The single tone the timeline requests. */
  const DefaultBeep: Request := BeepRequest(BeepDuration, BeepFrequency)
  const DefaultTones: set<(real, real)> := {(BeepDuration, BeepFrequency)}

  /** The requests a caller issues: every triple beep and voice request, and the beeps of
      the given (duration, frequency) pairs. */
  predicate Issued(tones: set<(real, real)>, r: Request)
  {
    r.BeepRequest? ==> (r.duration, r.frequency) in tones
  }

  /** No two issued requests share a key. */
  ghost predicate KeysDistinct(env: Env, tones: set<(real, real)>)
  {
    forall r1, r2 :: Issued(tones, r1) && Issued(tones, r2) && KeyOf(env, r1) == KeyOf(env, r2) ==> r1 == r2
  }

  /** The printed duration and frequency of a tone. */
  function TextsOf(env: Env, tone: (real, real)): (string, string)
  {
    (env.numberText(tone.0), env.numberText(tone.1))
  }

  /** Keys of issued requests are distinct when the digest is injective and the issued tones
      print as distinct, colon-free numbers (Python's `str` of a number never holds ':'). */
  lemma KeysDistinctFromDigest(env: Env, tones: set<(real, real)>)
    requires forall s, t :: env.md5(s) == env.md5(t) ==> s == t
    requires forall p, q :: p in tones && q in tones && TextsOf(env, p) == TextsOf(env, q) ==> p == q
    requires forall p :: p in tones ==> ColonFree(env.numberText(p.0)) && ColonFree(env.numberText(p.1))
    ensures KeysDistinct(env, tones)
  {
    assert ColonFree("beep") && ColonFree("triple_beep") && ColonFree("voice");
    forall r1, r2 | Issued(tones, r1) && Issued(tones, r2) && KeyOf(env, r1) == KeyOf(env, r2)
      ensures r1 == r2
    {
      var p1, a1 := Parts(env, r1);
      var p2, a2 := Parts(env, r2);
      assert KeyString(p1, a1) == KeyString(p2, a2);
      if p1 != p2 {
        KeyStringPrefixesDiffer(p1, a1, p2, a2);
      } else if r1.VoiceRequest? {
        SplitAtColon(p1, p2, r1.text, r2.text);
      } else if r1.BeepRequest? {
        assert (r1.duration, r1.frequency) in tones && (r2.duration, r2.frequency) in tones;
        KeyStringInjective(p1, a1, p2, a2);
        assert a1[0] == a2[0] && a1[1] == a2[1];
      }
    }
  }

  /** For the timeline's single tone only the digest and the colon-freeness of its two
      numbers matter; an identity digest with plain number texts meets this. */
  lemma DefaultKeysDistinct(env: Env)
    requires forall s, t :: env.md5(s) == env.md5(t) ==> s == t
    requires ColonFree(env.numberText(BeepDuration)) && ColonFree(env.numberText(BeepFrequency))
    ensures KeysDistinct(env, DefaultTones)
  {
    KeysDistinctFromDigest(env, DefaultTones);
  }

  /** Soundness can be met: with an identity digest and plain number texts the keys are
      distinct, and an empty cache with no file is coherent. */
  lemma SoundExists()
    ensures var env := Env(x => 0.0, t => NoOutput, x => "0.5", x => "", s => s);
      KeysDistinct(env, DefaultTones) && Sound(env, map[], Missing)
  {
    var env := Env(x => 0.0, t => NoOutput, x => "0.5", x => "", s => s);
    assert ColonFree("0.5");
    DefaultKeysDistinct(env);
  }

  /** The prefix and argument strings the key of a request is hashed from; a proof helper
      of KeysDistinctFromDigest. */
  lemma Parts(env: Env, request: Request) returns (prefix: string, args: seq<string>)
    ensures KeyOf(env, request) == env.md5(KeyString(prefix, args))
    ensures request.BeepRequest? ==>
      prefix == "beep" && args == [env.numberText(request.duration), env.numberText(request.frequency)]
    ensures request.TripleBeepRequest? ==> prefix == "triple_beep" && args == []
    ensures request.VoiceRequest? ==> prefix == "voice" && Join(args) == request.text && |args| == 1
  {
    match request
    case BeepRequest(d, f) =>
      prefix, args := "beep", [env.numberText(d), env.numberText(f)];
    case TripleBeepRequest =>
      prefix, args := "triple_beep", [];
    case VoiceRequest(text) =>
      prefix, args := "voice", [text];
  }

  /** Every cached clip of an issued request is what synthesising that request gives. */
  ghost predicate Coherent(env: Env, tones: set<(real, real)>, m: map<string, seq<int>>)
  {
    forall r :: Issued(tones, r) && KeyOf(env, r) in m ==> Fresh(env, r) == Some(m[KeyOf(env, r)])
  }

  /** A lookup map and a persisted file that both hold only coherent clips. */
  ghost predicate Ready(env: Env, tones: set<(real, real)>, view: map<string, seq<int>>, store: Store)
  {
    Coherent(env, tones, view) && (store.Saved? ==> Coherent(env, tones, store.entries))
  }

  /** The condition under which the timeline is transparent to caching: the keys the
      timeline issues are distinct and the cache and its file are coherent. */
  ghost predicate Sound(env: Env, view: map<string, seq<int>>, store: Store)
  {
    KeysDistinct(env, DefaultTones) && Ready(env, DefaultTones, view, store)
  }

  /** When a run of the builder is transparent to caching: the cache stores nothing (none,
      or disabled), or the run starts sound. */
  ghost predicate Transparent(env: Env, enabled: bool, view: map<string, seq<int>>, store: Store)
  {
    !enabled || Sound(env, view, store)
  }

  /** On a coherent map a lookup serves exactly the uncached clip of an issued request. */
  lemma CoherentServesFresh(env: Env, tones: set<(real, real)>, view: map<string, seq<int>>, r: Request)
    requires Coherent(env, tones, view) && Issued(tones, r)
    ensures Served(env, r, view) == Uncached(env, r)
  {
  }

  function Frame(cache: AudioCache?): set<object>
  {
    if cache == null then {} else {cache, cache.file}
  }

  /** Whether there is an enabled cache. */
  predicate Enabled(cache: AudioCache?)
  {
    cache != null && cache.enabled
  }

  /** The map lookups consult (empty without a cache) and the persisted file (absent
      without a cache). */
  ghost function ViewOf(cache: AudioCache?): (view: map<string, seq<int>>)
    reads Frame(cache)
    ensures !Enabled(cache) ==> view == map[]
  {
    if cache == null then map[] else cache.View()
  }

  ghost function StoreOf(cache: AudioCache?): Store
    reads Frame(cache)
  {
    if cache == null then Missing else cache.file.contents
  }

  /** `view` keeps every entry of `view0`. */
  ghost predicate Extends(view0: map<string, seq<int>>, view: map<string, seq<int>>)
  {
    forall k :: k in view0 ==> k in view && view[k] == view0[k]
  }

  /** How one lookup-or-synthesise of `request` changes the cache: an enabled miss whose
      synthesis succeeds inserts the clip and persists the whole map; anything else (no
      cache, disabled, a hit, failed speech) leaves map and file as they were. */
  ghost predicate Outcome(env: Env, request: Request, enabled: bool,
                          view0: map<string, seq<int>>, store0: Store,
                          view: map<string, seq<int>>, store: Store)
  {
    if enabled && KeyOf(env, request) !in view0 && Fresh(env, request).Some? then
      view == view0[KeyOf(env, request) := Fresh(env, request).value] && store == Saved(view)
    else
      view == view0 && store == store0
  }

  /** How any sequence of generator calls changes the cache: entries are only added, and the
      file either is untouched (with the map) or holds the whole current map. */
  ghost predicate Grows(enabled: bool, view0: map<string, seq<int>>, store0: Store,
                        view: map<string, seq<int>>, store: Store)
  {
    && Extends(view0, view)
    && ((view == view0 && store == store0) || (enabled && store == Saved(view)))
  }

  /** Growth that also keeps soundness. */
  ghost predicate Run(env: Env, enabled: bool, view0: map<string, seq<int>>, store0: Store,
                      view: map<string, seq<int>>, store: Store)
  {
    Grows(enabled, view0, store0, view, store) && (Sound(env, view0, store0) ==> Sound(env, view, store))
  }

  /** A single outcome is growth, and on an enabled cache a successful synthesis leaves its
      key present. */
  lemma OutcomeGrows(env: Env, r: Request, enabled: bool, view0: map<string, seq<int>>, store0: Store,
                     view: map<string, seq<int>>, store: Store)
    requires Outcome(env, r, enabled, view0, store0, view, store)
    ensures Grows(enabled, view0, store0, view, store)
    ensures enabled && Fresh(env, r).Some? ==> KeyOf(env, r) in view
  {
  }

  /** An outcome of an issued request keeps a coherent map and file coherent. */
  lemma OutcomeKeepsReady(env: Env, tones: set<(real, real)>, r: Request, enabled: bool,
                          view0: map<string, seq<int>>, store0: Store,
                          view: map<string, seq<int>>, store: Store)
    requires KeysDistinct(env, tones) && Issued(tones, r)
    requires Ready(env, tones, view0, store0)
    requires Outcome(env, r, enabled, view0, store0, view, store)
    ensures Ready(env, tones, view, store)
  {
    if enabled && KeyOf(env, r) !in view0 && Fresh(env, r).Some? {
      forall r' | Issued(tones, r') && KeyOf(env, r') in view
        ensures Fresh(env, r') == Some(view[KeyOf(env, r')])
      {
        if KeyOf(env, r') == KeyOf(env, r) {
          assert r' == r;
        }
      }
    }
  }

  /** Growth composes. */
  lemma {:induction false} GrowsTrans(enabled: bool, view0: map<string, seq<int>>, store0: Store,
                                      view1: map<string, seq<int>>, store1: Store,
                                      view2: map<string, seq<int>>, store2: Store)
    requires Grows(enabled, view0, store0, view1, store1)
    requires Grows(enabled, view1, store1, view2, store2)
    ensures Grows(enabled, view0, store0, view2, store2)
  {
  }

  lemma RunTrans(env: Env, enabled: bool, view0: map<string, seq<int>>, store0: Store,
                 view1: map<string, seq<int>>, store1: Store,
                 view2: map<string, seq<int>>, store2: Store)
    requires Run(env, enabled, view0, store0, view1, store1)
    requires Run(env, enabled, view1, store1, view2, store2)
    ensures Run(env, enabled, view0, store0, view2, store2)
  {
    GrowsTrans(enabled, view0, store0, view1, store1, view2, store2);
  }

  /** One more generator call of a timeline request after a run from (view0, store0): the
      run continues, the call only added entries, and when the run started sound the call
      served the uncached clip. */
  lemma Advance(env: Env, r: Request, enabled: bool, view0: map<string, seq<int>>, store0: Store,
                view1: map<string, seq<int>>, store1: Store,
                view2: map<string, seq<int>>, store2: Store)
    requires Issued(DefaultTones, r)
    requires !enabled ==> view1 == map[]
    requires Run(env, enabled, view0, store0, view1, store1)
    requires Outcome(env, r, enabled, view1, store1, view2, store2)
    ensures Run(env, enabled, view0, store0, view2, store2)
    ensures Extends(view1, view2)
    ensures Transparent(env, enabled, view0, store0) ==> Served(env, r, view1) == Uncached(env, r)
    ensures enabled && Fresh(env, r).Some? ==> KeyOf(env, r) in view2
  {
    OutcomeGrows(env, r, enabled, view1, store1, view2, store2);
    GrowsTrans(enabled, view0, store0, view1, store1, view2, store2);
    if Sound(env, view0, store0) {
      OutcomeKeepsReady(env, DefaultTones, r, enabled, view1, store1, view2, store2);
      CoherentServesFresh(env, DefaultTones, view1, r);
    }
  }

  // ---------------------------------------------------------------- cached generators

  /** `generate_beep`: the cached clip on an enabled hit, the synthesised tone otherwise;
      the cache (and its file) is written only on an enabled miss. */
  method GenerateBeep(env: Env, duration: real, frequency: real, cache: AudioCache?)
    returns (samples: seq<int>)
    requires cache != null ==> cache.Valid()
    modifies Frame(cache)
    ensures cache != null ==> cache.Valid()
    ensures samples == Served(env, BeepRequest(duration, frequency), old(ViewOf(cache)))
    ensures Outcome(env, BeepRequest(duration, frequency), Enabled(cache),
                    old(ViewOf(cache)), old(StoreOf(cache)), ViewOf(cache), StoreOf(cache))
  {
    var key := AudioCache.GenerateKey(env.md5, "beep", [env.numberText(duration), env.numberText(frequency)]);
    assert key == KeyOf(env, BeepRequest(duration, frequency));
    if cache != null {
      var cached := cache.Get(key);
      if cached.Some? {
        return cached.value;
      }
    }
    samples := GenerateSineWave(env.sine, duration, frequency);
    if cache != null {
      cache.Set(key, samples);
    }
  }

  /** `generate_triple_beep`, with the same cache discipline. */
  method GenerateTripleBeep(env: Env, cache: AudioCache?) returns (samples: seq<int>)
    requires cache != null ==> cache.Valid()
    modifies Frame(cache)
    ensures cache != null ==> cache.Valid()
    ensures samples == Served(env, TripleBeepRequest, old(ViewOf(cache)))
    ensures Outcome(env, TripleBeepRequest, Enabled(cache),
                    old(ViewOf(cache)), old(StoreOf(cache)), ViewOf(cache), StoreOf(cache))
  {
    var key := AudioCache.GenerateKey(env.md5, "triple_beep", []);
    assert key == KeyOf(env, TripleBeepRequest);
    if cache != null {
      var cached := cache.Get(key);
      if cached.Some? {
        return cached.value;
      }
    }
    var beep := GenerateSineWave(env.sine, TripleBeepDuration, BeepFrequency);
    var pause := Silence(TripleBeepPause);
    samples := beep + pause + beep + pause + beep;
    if cache != null {
      cache.Set(key, samples);
    }
  }

  /** `generate_voice_announcement`: the cached clip on an enabled hit; otherwise the
      speech (unpacked, downmixed to mono, resampled to 44100 Hz), or 2 s of silence when
      the speech path fails, a fallback that is never cached. */
  method GenerateVoiceAnnouncement(env: Env, text: string, cache: AudioCache?)
    returns (samples: seq<int>)
    requires cache != null ==> cache.Valid()
    modifies Frame(cache)
    ensures cache != null ==> cache.Valid()
    ensures samples == Served(env, VoiceRequest(text), old(ViewOf(cache)))
    ensures Outcome(env, VoiceRequest(text), Enabled(cache),
                    old(ViewOf(cache)), old(StoreOf(cache)), ViewOf(cache), StoreOf(cache))
  {
    var key := AudioCache.GenerateKey(env.md5, "voice", [text]);
    assert key == KeyOf(env, VoiceRequest(text));
    if cache != null {
      var cached := cache.Get(key);
      if cached.Some? {
        return cached.value;
      }
    }
    match env.speak(text) {
      case NoOutput =>
        return Silence(SilenceFallback);
      case EngineFailed =>
        return Silence(SilenceFallback);
      case Rendered(frames, rate, channels) =>
        if |frames| % 2 != 0 {
          return Silence(SilenceFallback);
        }
        var mono := Unpack16(frames);
        if channels != 1 {
          mono := DownmixToMono(mono);
        }
        if rate != SampleRate {
          var resampled := ResampleAudio(mono, rate, SampleRate);
          if resampled.None? {
            return Silence(SilenceFallback);
          }
          mono := resampled.value;
        }
        assert Speak(env, text) == Some(mono);
        if cache != null {
          cache.Set(key, mono);
        }
        return mono;
    }
  }

  // ---------------------------------------------------------------- timeline

  const StartingAnnouncement: string := "Starting... test in 5 seconds"
  const CountdownNumbers: seq<string> := ["4", "3", "2", "1"]

  /** Text announcing the next speed. */
  function AnnouncementText(env: Env, speedKmh: real): string
  {
    "Next speed... " + env.speedText(speedKmh) + "... kilometers per hour"
  }

  /** For each number, 1 s of silence and then the number spoken. */
  function Countdown(env: Env, numbers: seq<string>): (r: seq<int>)
    ensures |r| >= |numbers| * SampleRate
    decreases |numbers|
  {
    if |numbers| == 0 then []
    else
      var last := |numbers| - 1;
      Countdown(env, numbers[..last]) + Silence(CountdownNumberPause) + VoiceSamples(env, numbers[last])
  }

  /** Intro, countdown, 1 s pause and the start beep, which ends at time zero of the test. */
  function Prefix(env: Env): seq<int>
  {
    VoiceSamples(env, StartingAnnouncement) + Countdown(env, CountdownNumbers)
      + Silence(CountdownNumberPause) + Beep(env, BeepDuration, BeepFrequency)
  }

  /** The prefix opens with the intro announcement, holds at least 5 s of countdown
      (four pauses before the numbers and one after), and closes with one second of
      silence followed by the start beep. */
  lemma PrefixLayout(env: Env)
    ensures var r, beep := Prefix(env), Beep(env, BeepDuration, BeepFrequency);
      && VoiceSamples(env, StartingAnnouncement) <= r
      && |r| >= |VoiceSamples(env, StartingAnnouncement)| + 5 * SampleRate + |beep|
      && r[|r| - |beep|..] == beep
      && (forall k :: |r| - |beep| - SampleRate <= k < |r| - |beep| ==> r[k] == 0)
  {
    var intro := VoiceSamples(env, StartingAnnouncement);
    var countdown := Countdown(env, CountdownNumbers);
    var pause := Silence(CountdownNumberPause);
    var beep := Beep(env, BeepDuration, BeepFrequency);
    assert |pause| == SampleRate;
    var r := intro + countdown + pause + beep;
    assert r[..|intro|] == intro;
    assert r[|r| - |beep|..] == beep;
    assert forall k :: |r| - |beep| - SampleRate <= k < |r| - |beep| ==> r[k] == pause[k - |intro| - |countdown|];
  }

  /** Seconds of audio before time zero. */
  function Offset(env: Env): real
  {
    |Prefix(env)| as real / SampleRate as real
  }

  /** Silence up to `target` seconds, skipped when the buffer already reaches it. */
  function PadTo(audio: seq<int>, target: real): (r: seq<int>)
    ensures audio <= r
    ensures forall k :: |audio| <= k < |r| ==> r[k] == 0
    ensures |r| == if target * SampleRate as real > |audio| as real
                   then (target * SampleRate as real).Floor else |audio|
  {
    var gap := target - |audio| as real / SampleRate as real;
    if gap > 0.0 then audio + Silence(gap) else audio
  }

  /** A padded buffer reaches at least the sample at `target` seconds. */
  lemma PadToReaches(audio: seq<int>, target: real)
    ensures |PadTo(audio, target)| >= (target * SampleRate as real).Floor
  {
  }

  /** Index of the sample at interval `iv`'s end time, counted from the start of the audio. */
  function EndSample(iv: Intervals.Interval, offset: real): int
  {
    ((iv.totalDurationAtEnd + offset) * SampleRate as real).Floor
  }

  /** Whether interval i is preceded by an announcement: it ends a stage, it is not the
      last interval, and the announcement time falls after time zero. */
  predicate Announces(ivs: seq<Intervals.Interval>, i: nat, offset: real)
    requires i < |ivs|
  {
    && ivs[i].endsStage
    && i < |ivs| - 1
    && ivs[i].totalDurationAtEnd + offset - VoiceAnnouncementLeadTime > offset
  }

  /** In exact arithmetic the time test reduces to "the interval ends later than 10 s into
      the test", whatever the intro's length. */
  lemma AnnouncesWhen(ivs: seq<Intervals.Interval>, i: nat, offset: real)
    requires i < |ivs|
    ensures Announces(ivs, i, offset) <==>
      ivs[i].endsStage && i + 1 < |ivs| && ivs[i].totalDurationAtEnd > VoiceAnnouncementLeadTime
  {
  }

  /** The clips the per-interval steps are built from: the single beep, the triple beep
      and the announcement of a speed. */
  datatype Clips = Clips(beep: seq<int>, tripleBeep: seq<int>, announcement: real -> seq<int>)

  function ClipsOf(env: Env): Clips
  {
    Clips(Beep(env, BeepDuration, BeepFrequency), TripleBeep(env),
          speed => VoiceSamples(env, AnnouncementText(env, speed)))
  }

  /** The beep block closing an interval: a triple beep at a stage end, else one beep. */
  function BeepBlock(clips: Clips, iv: Intervals.Interval): seq<int>
  {
    if iv.endsStage then clips.tripleBeep else clips.beep
  }

  /** The first part of a step: silence up to 10 s before the interval's end and the
      announcement of the next interval's speed, when there is one. */
  function Announced(clips: Clips, ivs: seq<Intervals.Interval>, i: nat, offset: real, audio: seq<int>): (r: seq<int>)
    requires i < |ivs|
    ensures audio <= r
    ensures !Announces(ivs, i, offset) ==> r == audio
    ensures Announces(ivs, i, offset) ==>
      var clip := clips.announcement(ivs[i + 1].speedKmh);
      && |r| >= |clip|
      && r[|r| - |clip|..] == clip
      && |r| - |clip| >= ((ivs[i].totalDurationAtEnd + offset - VoiceAnnouncementLeadTime) * SampleRate as real).Floor
      && (forall k :: |audio| <= k < |r| - |clip| ==> r[k] == 0)
  {
    if Announces(ivs, i, offset) then
      PadTo(audio, ivs[i].totalDurationAtEnd + offset - VoiceAnnouncementLeadTime)
        + clips.announcement(ivs[i + 1].speedKmh)
    else audio
  }

  /** Being a prefix is transitive. */
  lemma PrefixTransitive(a: seq<int>, b: seq<int>, c: seq<int>)
    requires a <= b && b <= c
    ensures a <= c
  {
    assert c[..|a|] == b[..|a|];
  }

  /** One iteration of the timeline loop: the buffer is only extended. */
  function Step(clips: Clips, ivs: seq<Intervals.Interval>, i: nat, offset: real, audio: seq<int>): (r: seq<int>)
    requires i < |ivs|
    ensures audio <= r
  {
    var endTime := ivs[i].totalDurationAtEnd + offset;
    PadTo(Announced(clips, ivs, i, offset, audio), endTime) + BeepBlock(clips, ivs[i])
  }

  /** A step keeps the announcement part, pads to the interval's end time and then
      appends exactly one beep block, which starts no earlier than the end sample. */
  lemma StepLayout(clips: Clips, ivs: seq<Intervals.Interval>, i: nat, offset: real, audio: seq<int>)
    requires i < |ivs|
    ensures var r, block := Step(clips, ivs, i, offset, audio), BeepBlock(clips, ivs[i]);
      && Announced(clips, ivs, i, offset, audio) <= r
      && |r| >= |block|
      && r[|r| - |block|..] == block
      && |r| - |block| >= EndSample(ivs[i], offset)
  {
    var endTime := ivs[i].totalDurationAtEnd + offset;
    var announced := Announced(clips, ivs, i, offset, audio);
    var padded := PadTo(announced, endTime);
    PadToReaches(announced, endTime);
    var r := padded + BeepBlock(clips, ivs[i]);
    assert r[|r| - |BeepBlock(clips, ivs[i])|..] == BeepBlock(clips, ivs[i]);
    PrefixTransitive(announced, padded, r);
  }

  /** Left fold of a per-interval step: the buffer after the first n steps from `start`. */
  function Assembled(step: (nat, seq<int>) -> seq<int>, start: seq<int>, n: nat): seq<int>
  {
    if n == 0 then start else step(n - 1, Assembled(step, start, n - 1))
  }

  /** A fold of steps that only extend the buffer never rewinds: each stage of assembly
      extends every earlier one. */
  lemma {:induction false} AssembledExtends(step: (nat, seq<int>) -> seq<int>, start: seq<int>, m: nat, n: nat)
    requires forall i, audio :: audio <= step(i, audio)
    requires m <= n
    ensures Assembled(step, start, m) <= Assembled(step, start, n)
  {
    if m < n {
      AssembledExtends(step, start, m, n - 1);
      PrefixTransitive(Assembled(step, start, m), Assembled(step, start, n - 1), Assembled(step, start, n));
    }
  }

  /** The loop body of `create_audio_timeline` for interval i, as a step function. */
  function TimelineStep(clips: Clips, ivs: seq<Intervals.Interval>, offset: real): (nat, seq<int>) -> seq<int>
  {
    (i: nat, audio: seq<int>) => if i < |ivs| then Step(clips, ivs, i, offset, audio) else audio
  }

  /** `create_audio_timeline` as a value: the prefix, then one step per interval, with
      interval times taken relative to the end of the prefix. */
  function Timeline(env: Env, ivs: seq<Intervals.Interval>): seq<int>
  {
    Assembled(TimelineStep(ClipsOf(env), ivs, Offset(env)), Prefix(env), |ivs|)
  }

  /** After all steps the buffer extends the start and the buffer after any i steps. */
  lemma AssembledPrefixes(clips: Clips, ivs: seq<Intervals.Interval>, offset: real, start: seq<int>, i: nat)
    requires i <= |ivs|
    ensures var step := TimelineStep(clips, ivs, offset);
      start <= Assembled(step, start, |ivs|) && Assembled(step, start, i) <= Assembled(step, start, |ivs|)
  {
    var step := TimelineStep(clips, ivs, offset);
    assert forall j, audio :: audio <= step(j, audio);
    AssembledExtends(step, start, 0, |ivs|);
    AssembledExtends(step, start, i, |ivs|);
  }

  /** The buffer after i + 1 steps ends with interval i's beep block, which starts no
      earlier than the sample at the interval's end time. */
  lemma AssembledBlock(clips: Clips, ivs: seq<Intervals.Interval>, offset: real, start: seq<int>, i: nat)
    requires i < |ivs|
    ensures var upTo := Assembled(TimelineStep(clips, ivs, offset), start, i + 1);
      var block := BeepBlock(clips, ivs[i]);
      && |upTo| >= |block|
      && upTo[|upTo| - |block|..] == block
      && |upTo| - |block| >= EndSample(ivs[i], offset)
  {
    var step := TimelineStep(clips, ivs, offset);
    var before := Assembled(step, start, i);
    assert Assembled(step, start, i + 1) == Step(clips, ivs, i, offset, before);
    StepLayout(clips, ivs, i, offset, before);
  }

  /** The timeline begins with the prefix (intro, countdown, start beep); interval i's beep
      block starts no earlier than the sample at its end time past time zero. */
  lemma TimelineLayout(env: Env, ivs: seq<Intervals.Interval>, i: nat)
    requires i < |ivs|
    ensures Prefix(env) <= Timeline(env, ivs)
    ensures var upTo := Assembled(TimelineStep(ClipsOf(env), ivs, Offset(env)), Prefix(env), i + 1);
      var block := BeepBlock(ClipsOf(env), ivs[i]);
      && upTo <= Timeline(env, ivs)
      && |upTo| >= |block|
      && upTo[|upTo| - |block|..] == block
      && |upTo| - |block| >= EndSample(ivs[i], Offset(env))
  {
    AssembledPrefixes(ClipsOf(env), ivs, Offset(env), Prefix(env), i + 1);
    AssembledBlock(ClipsOf(env), ivs, Offset(env), Prefix(env), i);
  }

  /** The request whose clip closes interval `iv`: the triple beep at a stage end, else the
      single tone. */
  function BlockRequest(iv: Intervals.Interval): Request
  {
    if iv.endsStage then TripleBeepRequest else DefaultBeep
  }

  /** The keys of the closing clips of the first n intervals. */
  ghost function BlockKeys(env: Env, ivs: seq<Intervals.Interval>, n: nat): set<string>
    requires n <= |ivs|
  {
    if n == 0 then {} else BlockKeys(env, ivs, n - 1) + {KeyOf(env, BlockRequest(ivs[n - 1]))}
  }

  /** The keys of the numbers whose speech succeeds. */
  ghost function SpokenKeys(env: Env, numbers: seq<string>): set<string>
  {
    if |numbers| == 0 then {}
    else
      var last := |numbers| - 1;
      SpokenKeys(env, numbers[..last])
        + if Speak(env, numbers[last]).Some? then {KeyOf(env, VoiceRequest(numbers[last]))} else {}
  }

  /** BlockKeys holds exactly the closing-clip keys of the first n intervals. */
  lemma {:induction false} BlockKeysHeld(env: Env, ivs: seq<Intervals.Interval>, n: nat)
    requires n <= |ivs|
    ensures forall j :: 0 <= j < n ==> KeyOf(env, BlockRequest(ivs[j])) in BlockKeys(env, ivs, n)
    ensures forall k :: k in BlockKeys(env, ivs, n) ==> exists j :: 0 <= j < n && k == KeyOf(env, BlockRequest(ivs[j]))
  {
    if n > 0 {
      BlockKeysHeld(env, ivs, n - 1);
    }
  }

  /** SpokenKeys holds exactly the keys of the numbers whose speech succeeds. */
  lemma {:induction false} SpokenKeysHeld(env: Env, numbers: seq<string>)
    ensures forall j :: 0 <= j < |numbers| && Speak(env, numbers[j]).Some? ==>
      KeyOf(env, VoiceRequest(numbers[j])) in SpokenKeys(env, numbers)
    ensures forall k :: k in SpokenKeys(env, numbers) ==>
      exists j :: 0 <= j < |numbers| && Speak(env, numbers[j]).Some? && k == KeyOf(env, VoiceRequest(numbers[j]))
  {
    if |numbers| > 0 {
      var last := |numbers| - 1;
      SpokenKeysHeld(env, numbers[..last]);
      assert forall j :: 0 <= j < last ==> numbers[..last][j] == numbers[j];
    }
  }

  /** Extending a map keeps its keys. */
  lemma ExtendsKeys(view0: map<string, seq<int>>, view: map<string, seq<int>>)
    requires Extends(view0, view)
    ensures view0.Keys <= view.Keys
  {
  }

  /** Without a cache the builder always yields the timeline. */
  method TimelineWithoutCache(env: Env, ivs: seq<Intervals.Interval>) returns (audio: seq<int>)
    ensures audio == Timeline(env, ivs)
  {
    audio := CreateAudioTimeline(env, ivs, null);
  }

  /** `create_audio_timeline`. The cache only gains entries, and its file is untouched or
      holds the whole map; an enabled cache ends up holding the start beep and every
      interval's closing clip. Without a cache, with a disabled one, or when the keys it
      issues are distinct and the cache and its file start coherent, the result is the
      timeline. */
  method CreateAudioTimeline(env: Env, ivs: seq<Intervals.Interval>, cache: AudioCache?)
    returns (audio: seq<int>)
    requires cache != null ==> cache.Valid()
    modifies Frame(cache)
    ensures cache != null ==> cache.Valid()
    ensures Run(env, Enabled(cache), old(ViewOf(cache)), old(StoreOf(cache)), ViewOf(cache), StoreOf(cache))
    ensures Enabled(cache) ==> KeyOf(env, DefaultBeep) in ViewOf(cache)
    ensures forall j :: 0 <= j < |ivs| && Enabled(cache) ==> KeyOf(env, BlockRequest(ivs[j])) in ViewOf(cache)
    ensures Transparent(env, Enabled(cache), old(ViewOf(cache)), old(StoreOf(cache))) ==> audio == Timeline(env, ivs)
  {
    ghost var v0, c0 := ViewOf(cache), StoreOf(cache);
    var prefix := AppendPrefix(env, cache);
    var offset := |prefix| as real / SampleRate as real;
    assert Transparent(env, Enabled(cache), v0, c0) ==> offset == Offset(env);
    ghost var v1, c1 := ViewOf(cache), StoreOf(cache);
    audio := AppendIntervals(env, ivs, offset, prefix, cache);
    RunTrans(env, Enabled(cache), v0, c0, v1, c1, ViewOf(cache), StoreOf(cache));
    BlockKeysHeld(env, ivs, |ivs|);
  }

  /** The interval loop of `create_audio_timeline`, from the buffer `start`. */
  method AppendIntervals(env: Env, ivs: seq<Intervals.Interval>, offset: real, start: seq<int>,
                         cache: AudioCache?) returns (audio: seq<int>)
    requires cache != null ==> cache.Valid()
    modifies Frame(cache)
    ensures cache != null ==> cache.Valid()
    ensures Run(env, Enabled(cache), old(ViewOf(cache)), old(StoreOf(cache)), ViewOf(cache), StoreOf(cache))
    ensures Enabled(cache) ==> BlockKeys(env, ivs, |ivs|) <= ViewOf(cache).Keys
    ensures Transparent(env, Enabled(cache), old(ViewOf(cache)), old(StoreOf(cache))) ==>
      audio == Assembled(TimelineStep(ClipsOf(env), ivs, offset), start, |ivs|)
  {
    ghost var v0, c0 := ViewOf(cache), StoreOf(cache);
    ghost var step := TimelineStep(ClipsOf(env), ivs, offset);
    audio := start;
    for i := 0 to |ivs|
      invariant cache != null ==> cache.Valid()
      invariant Run(env, Enabled(cache), v0, c0, ViewOf(cache), StoreOf(cache))
      invariant Enabled(cache) ==> BlockKeys(env, ivs, i) <= ViewOf(cache).Keys
      invariant Transparent(env, Enabled(cache), v0, c0) ==> audio == Assembled(step, start, i)
    {
      ghost var v1, c1 := ViewOf(cache), StoreOf(cache);
      audio := AppendInterval(env, ivs, i, offset, audio, cache);
      RunTrans(env, Enabled(cache), v0, c0, v1, c1, ViewOf(cache), StoreOf(cache));
      ExtendsKeys(v1, ViewOf(cache));
    }
  }

  /** The part of `create_audio_timeline` before the interval loop: announcement,
      countdown, pause and start beep. */
  method AppendPrefix(env: Env, cache: AudioCache?) returns (audio: seq<int>)
    requires cache != null ==> cache.Valid()
    modifies Frame(cache)
    ensures cache != null ==> cache.Valid()
    ensures Run(env, Enabled(cache), old(ViewOf(cache)), old(StoreOf(cache)), ViewOf(cache), StoreOf(cache))
    ensures Enabled(cache) ==> KeyOf(env, DefaultBeep) in ViewOf(cache)
    ensures Enabled(cache) && Speak(env, StartingAnnouncement).Some? ==>
      KeyOf(env, VoiceRequest(StartingAnnouncement)) in ViewOf(cache)
    ensures Enabled(cache) ==> SpokenKeys(env, CountdownNumbers) <= ViewOf(cache).Keys
    ensures Transparent(env, Enabled(cache), old(ViewOf(cache)), old(StoreOf(cache))) ==> audio == Prefix(env)
  {
    ghost var v0, c0 := ViewOf(cache), StoreOf(cache);
    var intro := GenerateVoiceAnnouncement(env, StartingAnnouncement, cache);
    Advance(env, VoiceRequest(StartingAnnouncement), Enabled(cache), v0, c0, v0, c0, ViewOf(cache), StoreOf(cache));
    ghost var v1, c1 := ViewOf(cache), StoreOf(cache);
    audio := AppendCountdown(env, CountdownNumbers, intro, cache);
    RunTrans(env, Enabled(cache), v0, c0, v1, c1, ViewOf(cache), StoreOf(cache));
    audio := audio + Silence(CountdownNumberPause);
    ghost var v2, c2 := ViewOf(cache), StoreOf(cache);
    var startBeep := GenerateBeep(env, BeepDuration, BeepFrequency, cache);
    Advance(env, DefaultBeep, Enabled(cache), v0, c0, v2, c2, ViewOf(cache), StoreOf(cache));
    ExtendsKeys(v2, ViewOf(cache));
    audio := audio + startBeep;
  }

  /** The countdown loop: a pause before each number, then the number spoken; an enabled
      cache ends up holding every number whose speech succeeds. */
  method AppendCountdown(env: Env, numbers: seq<string>, audio: seq<int>, cache: AudioCache?)
    returns (extended: seq<int>)
    requires cache != null ==> cache.Valid()
    modifies Frame(cache)
    ensures cache != null ==> cache.Valid()
    ensures Run(env, Enabled(cache), old(ViewOf(cache)), old(StoreOf(cache)), ViewOf(cache), StoreOf(cache))
    ensures Enabled(cache) ==> SpokenKeys(env, numbers) <= ViewOf(cache).Keys
    ensures Transparent(env, Enabled(cache), old(ViewOf(cache)), old(StoreOf(cache))) ==>
      extended == audio + Countdown(env, numbers)
  {
    ghost var v0, c0 := ViewOf(cache), StoreOf(cache);
    extended := audio;
    for k := 0 to |numbers|
      invariant cache != null ==> cache.Valid()
      invariant Run(env, Enabled(cache), v0, c0, ViewOf(cache), StoreOf(cache))
      invariant Enabled(cache) ==> SpokenKeys(env, numbers[..k]) <= ViewOf(cache).Keys
      invariant Transparent(env, Enabled(cache), v0, c0) ==> extended == audio + Countdown(env, numbers[..k])
    {
      ghost var v1, c1 := ViewOf(cache), StoreOf(cache);
      var pause := Silence(CountdownNumberPause);
      var spoken := GenerateVoiceAnnouncement(env, numbers[k], cache);
      Advance(env, VoiceRequest(numbers[k]), Enabled(cache), v0, c0, v1, c1, ViewOf(cache), StoreOf(cache));
      if Transparent(env, Enabled(cache), v0, c0) {
        CountdownStep(env, audio, numbers, k, pause, spoken);
      }
      ExtendsKeys(v1, ViewOf(cache));
      assert numbers[..k + 1][..k] == numbers[..k];
      extended := extended + pause + spoken;
    }
    assert numbers[..|numbers|] == numbers;
  }

  /** Appending a pause and number k to the countdown of the first k numbers gives the
      countdown of the first k + 1. */
  lemma CountdownStep(env: Env, audio: seq<int>, numbers: seq<string>, k: nat, pause: seq<int>, spoken: seq<int>)
    requires k < |numbers|
    requires pause == Silence(CountdownNumberPause) && spoken == VoiceSamples(env, numbers[k])
    ensures audio + Countdown(env, numbers[..k]) + pause + spoken == audio + Countdown(env, numbers[..k + 1])
  {
    assert numbers[..k + 1][..k] == numbers[..k];
    assert Countdown(env, numbers[..k + 1]) == Countdown(env, numbers[..k]) + pause + spoken;
  }

  /** The body of the interval loop of `create_audio_timeline`: an enabled cache ends up
      holding the interval's closing clip and, when spoken successfully, its announcement. */
  method AppendInterval(env: Env, ivs: seq<Intervals.Interval>, i: nat, offset: real, audio: seq<int>,
                        cache: AudioCache?) returns (extended: seq<int>)
    requires i < |ivs|
    requires cache != null ==> cache.Valid()
    modifies Frame(cache)
    ensures cache != null ==> cache.Valid()
    ensures Run(env, Enabled(cache), old(ViewOf(cache)), old(StoreOf(cache)), ViewOf(cache), StoreOf(cache))
    ensures Enabled(cache) ==> KeyOf(env, BlockRequest(ivs[i])) in ViewOf(cache)
    ensures Enabled(cache) && Announces(ivs, i, offset)
            && Speak(env, AnnouncementText(env, ivs[i + 1].speedKmh)).Some? ==>
      KeyOf(env, VoiceRequest(AnnouncementText(env, ivs[i + 1].speedKmh))) in ViewOf(cache)
    ensures Transparent(env, Enabled(cache), old(ViewOf(cache)), old(StoreOf(cache))) ==>
      extended == Step(ClipsOf(env), ivs, i, offset, audio)
  {
    ghost var v0, c0 := ViewOf(cache), StoreOf(cache);
    var iv := ivs[i];
    var endTime := iv.totalDurationAtEnd + offset;
    extended := AppendAnnouncement(env, ivs, i, offset, audio, cache);
    ghost var announced := extended;
    var gap := endTime - |extended| as real / SampleRate as real;
    if gap > 0.0 {
      extended := extended + Silence(gap);
    }
    ghost var v1, c1 := ViewOf(cache), StoreOf(cache);
    var block := GenerateBlock(env, iv, cache);
    Advance(env, BlockRequest(iv), Enabled(cache), v0, c0, v1, c1, ViewOf(cache), StoreOf(cache));
    if Transparent(env, Enabled(cache), v0, c0) {
      IntervalClosed(env, ivs, i, offset, audio, announced, extended, block);
    }
    extended := extended + block;
  }

  /** The padded announcement part followed by the uncached closing clip is one step. */
  lemma IntervalClosed(env: Env, ivs: seq<Intervals.Interval>, i: nat, offset: real, audio: seq<int>,
                       announced: seq<int>, padded: seq<int>, block: seq<int>)
    requires i < |ivs|
    requires announced == Announced(ClipsOf(env), ivs, i, offset, audio)
    requires padded == (var gap := ivs[i].totalDurationAtEnd + offset - |announced| as real / SampleRate as real;
                        if gap > 0.0 then announced + Silence(gap) else announced)
    requires block == Uncached(env, BlockRequest(ivs[i]))
    ensures padded + block == Step(ClipsOf(env), ivs, i, offset, audio)
  {
  }

  /** The announcement part of the interval loop: silence up to 10 s before the end of a
      stage-ending interval and the next speed, spoken. */
  method AppendAnnouncement(env: Env, ivs: seq<Intervals.Interval>, i: nat, offset: real, audio: seq<int>,
                            cache: AudioCache?) returns (extended: seq<int>)
    requires i < |ivs|
    requires cache != null ==> cache.Valid()
    modifies Frame(cache)
    ensures cache != null ==> cache.Valid()
    ensures Run(env, Enabled(cache), old(ViewOf(cache)), old(StoreOf(cache)), ViewOf(cache), StoreOf(cache))
    ensures Enabled(cache) && Announces(ivs, i, offset)
            && Speak(env, AnnouncementText(env, ivs[i + 1].speedKmh)).Some? ==>
      KeyOf(env, VoiceRequest(AnnouncementText(env, ivs[i + 1].speedKmh))) in ViewOf(cache)
    ensures Transparent(env, Enabled(cache), old(ViewOf(cache)), old(StoreOf(cache))) ==>
      extended == Announced(ClipsOf(env), ivs, i, offset, audio)
  {
    ghost var v0, c0 := ViewOf(cache), StoreOf(cache);
    extended := audio;
    var iv := ivs[i];
    var endTime := iv.totalDurationAtEnd + offset;
    if iv.endsStage && i < |ivs| - 1 {
      var next := ivs[i + 1];
      var voiceTime := endTime - VoiceAnnouncementLeadTime;
      if voiceTime > offset {
        var gap := voiceTime - |extended| as real / SampleRate as real;
        if gap > 0.0 {
          extended := extended + Silence(gap);
        }
        var voice := GenerateVoiceAnnouncement(env, AnnouncementText(env, next.speedKmh), cache);
        Advance(env, VoiceRequest(AnnouncementText(env, next.speedKmh)), Enabled(cache),
                v0, c0, v0, c0, ViewOf(cache), StoreOf(cache));
        extended := extended + voice;
      }
    }
  }

  /** The beep block closing an interval, through the cache: the triple beep at a stage
      end, else the single tone. */
  method GenerateBlock(env: Env, iv: Intervals.Interval, cache: AudioCache?) returns (block: seq<int>)
    requires cache != null ==> cache.Valid()
    modifies Frame(cache)
    ensures cache != null ==> cache.Valid()
    ensures block == Served(env, BlockRequest(iv), old(ViewOf(cache)))
    ensures Outcome(env, BlockRequest(iv), Enabled(cache),
                    old(ViewOf(cache)), old(StoreOf(cache)), ViewOf(cache), StoreOf(cache))
  {
    if iv.endsStage {
      block := GenerateTripleBeep(env, cache);
    } else {
      block := GenerateBeep(env, BeepDuration, BeepFrequency, cache);
    }
  }

  /** Without a cache the closing request yields the closing block of the timeline. */
  lemma BlockUncached(env: Env, iv: Intervals.Interval)
    ensures Uncached(env, BlockRequest(iv)) == BeepBlock(ClipsOf(env), iv)
  {
  }
}
