/** Named constants of the generator (src/constants.py). */
module Constants {

  /** Output sample rate in Hz; every buffer in the model is at this rate. */
  const SampleRate: nat := 44100
  const BeepFrequency: real := 220.0
  const BeepDuration: real := 0.5
  const BeepAmplitude: real := 10000.0
  const TripleBeepDuration: real := 0.2
  const TripleBeepPause: real := 0.1
  const CountdownNumberPause: real := 1.0
  const VoiceAnnouncementLeadTime: real := 10.0
  const SilenceFallback: real := 2.0

  /** Signed 16-bit sample limits. */
  const MaxSample: int := 32767
  const MinSample: int := -32768

  const DefaultCacheDir: string := ".cache"

  /** Hard ceiling on the number of generated intervals. */
  const MaxIterations: nat := 100
}
