/**
 * The mood sound player's recipe table: which oscillators `playMoodSound`
 * schedules for a mood, and the envelope it gives the shared gain.
 *
 * Times are whole milliseconds after the audio clock's `now` at the moment
 * the recipe is played, frequencies whole hertz and gain levels thousandths.
 */
module Recipes {
  datatype Waveform = Sine | Triangle | Square | Sawtooth

  /** A fixed frequency, or an exponential glide that reaches `toHz` at `glideEndMs`. */
  datatype Pitch = Steady(hz: nat) | Glide(fromHz: nat, toHz: nat, glideEndMs: nat)

  /** One scheduled oscillator: it sounds from `startMs` until `stopMs`. */
  datatype Osc = Osc(wave: Waveform, pitch: Pitch, startMs: nat, stopMs: nat)

  /**
   * The shared gain's schedule: 0 at `now`, a linear ramp up to `peak` at
   * `peakMs`, then a linear ramp back to 0 at `endMs`.
   */
  datatype Envelope = Envelope(peakMs: nat, peak: nat, endMs: nat)

  datatype Recipe = Recipe(oscs: seq<Osc>, env: Envelope)

  /** The labels the detector reports. */
  const KnownMoods: set<string> :=
    {"neutral", "happy", "sad", "angry", "fearful", "disgusted", "surprised"}

  /** The `i`-th voice of a staggered arpeggio: it starts `i` staggers late and lasts `lengthMs`. */
  function ArpeggioVoice(hz: nat, i: nat, staggerMs: nat, lengthMs: nat): Osc
  {
    Osc(Sine, Steady(hz), i * staggerMs, lengthMs + i * staggerMs)
  }

  /** The sine voices one `forEach((f, i) => ...)` over `freqs` schedules. */
  function Arpeggio(freqs: seq<nat>, staggerMs: nat, lengthMs: nat): seq<Osc>
  {
    seq(|freqs|, i requires 0 <= i < |freqs| => ArpeggioVoice(freqs[i], i, staggerMs, lengthMs))
  }

  /**
   * Every oscillator starts before it stops and has stopped by the time the
   * envelope is back at 0, and the envelope peaks before it ends.
   */
  ghost predicate WellTimed(r: Recipe)
  {
    && 0 < r.env.peakMs < r.env.endMs
    && forall i | 0 <= i < |r.oscs| :: r.oscs[i].startMs < r.oscs[i].stopMs <= r.env.endMs
  }

  /** Number of oscillators a mood's recipe schedules. */
  function VoiceCount(mood: string): nat
  {
    if mood == "happy" || mood == "surprised" then 3
    else if mood == "neutral" then 2
    else 1
  }

  /** The `if/else` chain of `playMoodSound`, one branch per mood, with its fallback beep. */
  function RecipeFor(mood: string): (r: Recipe)
    ensures WellTimed(r)
    ensures |r.oscs| == VoiceCount(mood)
    ensures r.env.peak > 0
  {
    if mood == "happy" then
      Recipe(Arpeggio([660, 880, 990], 120, 600), Envelope(20, 120, 1000))
    else if mood == "sad" then
      Recipe([Osc(Triangle, Steady(220), 0, 1600)], Envelope(50, 80, 1600))
    else if mood == "angry" then
      Recipe([Osc(Square, Steady(120), 0, 900)], Envelope(20, 160, 900))
    else if mood == "surprised" then
      Recipe(Arpeggio([1200, 1500, 1800], 60, 180), Envelope(20, 140, 800))
    else if mood == "neutral" then
      Recipe([Osc(Sine, Steady(330), 0, 1800), Osc(Sine, Steady(440), 0, 1800)], Envelope(20, 60, 1800))
    else if mood == "fearful" || mood == "disgusted" then
      Recipe([Osc(Sawtooth, Glide(180, 60, 1200), 0, 1400)], Envelope(20, 120, 1400))
    else
      Recipe([Osc(Sine, Steady(440), 0, 180)], Envelope(20, 80, 300))
  }

  /** The latest stop among a recipe's oscillators (0 for none). */
  function LastStop(oscs: seq<Osc>): (t: nat)
    ensures forall i | 0 <= i < |oscs| :: oscs[i].stopMs <= t
    ensures oscs != [] ==> exists i | 0 <= i < |oscs| :: oscs[i].stopMs == t
  {
    if oscs == [] then 0
    else
      var rest := LastStop(oscs[1..]);
      if oscs[0].stopMs >= rest then oscs[0].stopMs else rest
  }

  /** happy: three sines at 660, 880 and 990 Hz, 120 ms apart, the last stopping at 840 ms; the gain peaks at 0.12 after 20 ms and is silent at 1000 ms. */
  lemma HappyRecipe()
    ensures RecipeFor("happy").oscs == [
      Osc(Sine, Steady(660), 0, 600), Osc(Sine, Steady(880), 120, 720), Osc(Sine, Steady(990), 240, 840)]
    ensures LastStop(RecipeFor("happy").oscs) == 840
    ensures RecipeFor("happy").env == Envelope(20, 120, 1000)
  {
  }

  /** surprised: three sines at 1200, 1500 and 1800 Hz, 60 ms apart, the last stopping at 300 ms; the gain peaks at 0.14 after 20 ms and is silent at 800 ms. */
  lemma SurprisedRecipe()
    ensures RecipeFor("surprised").oscs == [
      Osc(Sine, Steady(1200), 0, 180), Osc(Sine, Steady(1500), 60, 240), Osc(Sine, Steady(1800), 120, 300)]
    ensures LastStop(RecipeFor("surprised").oscs) == 300
    ensures RecipeFor("surprised").env == Envelope(20, 140, 800)
  {
  }

  /** fearful and disgusted share one recipe: a sawtooth gliding from 180 to 60 Hz. */
  lemma FearfulDisgustedShareRecipe()
    ensures RecipeFor("fearful") == RecipeFor("disgusted")
    ensures RecipeFor("fearful").oscs == [Osc(Sawtooth, Glide(180, 60, 1200), 0, 1400)]
  {
  }

  /** Any label outside the detector's set gets the 180 ms, 440 Hz sine beep. */
  lemma FallbackRecipe(mood: string)
    requires mood !in KnownMoods
    ensures RecipeFor(mood) == Recipe([Osc(Sine, Steady(440), 0, 180)], Envelope(20, 80, 300))
  {
  }
}
