/**
 * The five synthesized voices (kick, 808 bass, hi-hat, snare/clap, cowbell), each reduced to the
 * scalar parameters it hands to the audio backend: for every sound generator it starts, the
 * waveform, the pitch automation, the filter, the gain envelope and the start and stop times.
 * The node graph itself, the distortion curve's values and the noise samples are not modelled.
 */
module Voices {
  import opened Wrappers

  /** A live audio context, as far as a voice reads it. */
  datatype Context = Context(sampleRate: real)

  /** What produces the signal: an oscillator of some waveform, or a noise buffer of some length in frames. */
  datatype Source = Sine | Square | Noise(frames: real)

  /**
   * Frequency automation of an oscillator: none (noise), a constant frequency, or a value set at the
   * start time followed by an exponential ramp that reaches `toHz` at time `until`.
   */
  datatype Pitch = Unpitched | Fixed(hz: real) | Sweep(fromHz: real, toHz: real, until: real)

  datatype Filter = Direct | HighPass(cutoff: real) | BandPass(center: real)

  /** Gain set to `peak` at the start time, then ramped exponentially to `floor`, reached at `until`. */
  datatype Envelope = Envelope(peak: real, floor: real, until: real)

  /** One started-and-stopped source node with the parameters of the chain it feeds. */
  datatype Generator = Generator(source: Source, pitch: Pitch, shaped: bool, filter: Filter,
                                 gain: Envelope, start: real, stop: real)

  /** A voice together with its per-trigger parameter (the 808's base frequency, the hi-hat's openness). */
  datatype Trigger = Kick | Bass(freq: real) | Snare | HiHat(open: bool) | Cowbell

  /** Every envelope decays to this gain. */
  const Floor: real := 0.01

  /**
   * The stop offset of a voice: how long after its trigger time its last generator is stopped. (A noise
   * buffer shorter than that, as the open hi-hat's 0.1 s buffer, falls silent before its stop time.)
   */
  function Lifetime(t: Trigger): real
  {
    match t
    case Kick => 0.3
    case Bass(_) => 0.5
    case Snare => 0.2
    case HiHat(open) => if open then 0.15 else 0.05
    case Cowbell => 0.3
  }

  /**
   * A generator that is started at `from` and stopped at `to`, whose gain envelope decays from above the
   * floor to the floor at the stop time, and whose pitch sweep (if any) falls and is finished by then.
   */
  predicate Sounds(g: Generator, from: real, to: real)
  {
    && g.start == from && from < to && g.stop == to
    && g.gain.floor == Floor && Floor < g.gain.peak && g.gain.until == to
    && (g.pitch.Sweep? ==> g.pitch.toHz < g.pitch.fromHz && from < g.pitch.until <= to)
  }

  function PlayKick(ctx: Option<Context>, time: real): (r: seq<Generator>)
    ensures ctx.None? ==> r == []
    ensures ctx.Some? ==> |r| == 1 && Sounds(r[0], time, time + 0.3)
    ensures ctx.Some? ==> r[0].pitch == Sweep(150.0, 40.0, time + 0.1) && r[0].gain.peak == 1.0
    ensures ctx.Some? ==> r[0].source == Sine && r[0].filter == Direct && !r[0].shaped
  {
    if ctx.None? then []
    else [Generator(Sine, Sweep(150.0, 40.0, time + 0.1), false, Direct,
                    Envelope(1.0, Floor, time + 0.3), time, time + 0.3)]
  }

  /** The 808 bass: a shaped sine that falls to exactly half of `freq` within 0.4 s. */
  function Play808(ctx: Option<Context>, time: real, freq: real := 55.0): (r: seq<Generator>)
    ensures ctx.None? ==> r == []
    ensures ctx.Some? ==> |r| == 1 && r[0].start == time && r[0].stop == time + 0.5
    ensures ctx.Some? && freq > 0.0 ==> Sounds(r[0], time, time + 0.5)
    ensures ctx.Some? ==> r[0].pitch.Sweep? && r[0].pitch.fromHz == freq && r[0].pitch.toHz * 2.0 == freq
    ensures ctx.Some? ==> r[0].shaped && r[0].source == Sine && r[0].gain == Envelope(0.8, Floor, time + 0.5)
    ensures ctx.Some? ==> r[0].pitch.until == time + 0.4 && r[0].filter == Direct
  {
    if ctx.None? then []
    else [Generator(Sine, Sweep(freq, freq * 0.5, time + 0.4), true, Direct,
                    Envelope(0.8, Floor, time + 0.5), time, time + 0.5)]
  }

  /** The hi-hat: high-passed noise; the open variant is louder, lets lower frequencies through and rings longer. */
  function PlayHiHat(ctx: Option<Context>, time: real, open: bool := false): (r: seq<Generator>)
    ensures ctx.None? ==> r == []
    ensures ctx.Some? ==> |r| == 1 && Sounds(r[0], time, time + (if open then 0.15 else 0.05))
    ensures ctx.Some? ==> r[0].source == Noise(ctx.value.sampleRate * 0.1) && r[0].pitch.Unpitched?
    ensures ctx.Some? ==> r[0].filter == HighPass(if open then 7000.0 else 10000.0)
    ensures ctx.Some? ==> r[0].gain.peak == (if open then 0.15 else 0.1) && !r[0].shaped
  {
    if ctx.None? then []
    else
      var decay := if open then 0.15 else 0.05;
      [Generator(Noise(ctx.value.sampleRate * 0.1), Unpitched, false,
                 HighPass(if open then 7000.0 else 10000.0),
                 Envelope(if open then 0.15 else 0.1, Floor, time + decay), time, time + decay)]
  }

  /** The snare/clap: a band-passed noise layer and a falling tone layer, both starting at `time`. */
  function PlaySnare(ctx: Option<Context>, time: real): (r: seq<Generator>)
    ensures ctx.None? ==> r == []
    ensures ctx.Some? ==> |r| == 2 && Sounds(r[0], time, time + 0.2) && Sounds(r[1], time, time + 0.1)
    ensures ctx.Some? ==> r[0].source == Noise(ctx.value.sampleRate * 0.2) && r[0].filter == BandPass(3000.0)
    ensures ctx.Some? ==> r[0].gain.peak == 0.5 && r[1].gain.peak == 0.4
    ensures ctx.Some? ==> r[1].pitch == Sweep(200.0, 100.0, time + 0.1)
    ensures ctx.Some? ==> r[1].source == Sine && r[1].filter == Direct && r[0].pitch.Unpitched?
    ensures ctx.Some? ==> !r[0].shaped && !r[1].shaped
  {
    if ctx.None? then []
    else [Generator(Noise(ctx.value.sampleRate * 0.2), Unpitched, false, BandPass(3000.0),
                    Envelope(0.5, Floor, time + 0.2), time, time + 0.2),
          Generator(Sine, Sweep(200.0, 100.0, time + 0.1), false, Direct,
                    Envelope(0.4, Floor, time + 0.1), time, time + 0.1)]
  }

  /**
   * The cowbell: two square oscillators at the detuned pair 587 Hz / 845 Hz, summed into one gain
   * envelope and band-passed at 800 Hz (each generator below carries that shared chain).
   */
  function PlayCowbell(ctx: Option<Context>, time: real): (r: seq<Generator>)
    ensures ctx.None? ==> r == []
    ensures ctx.Some? ==> |r| == 2 && Sounds(r[0], time, time + 0.3) && Sounds(r[1], time, time + 0.3)
    ensures ctx.Some? ==> r[0].pitch == Fixed(587.0) && r[1].pitch == Fixed(845.0)
    ensures ctx.Some? ==> r[0].gain == r[1].gain == Envelope(0.25, Floor, time + 0.3)
    ensures ctx.Some? ==> forall g :: g in r ==> g.source == Square && g.filter == BandPass(800.0) && !g.shaped
  {
    if ctx.None? then []
    else
      var chain := Envelope(0.25, Floor, time + 0.3);
      [Generator(Square, Fixed(587.0), false, BandPass(800.0), chain, time, time + 0.3),
       Generator(Square, Fixed(845.0), false, BandPass(800.0), chain, time, time + 0.3)]
  }

  /** The voice call the scheduler makes for one trigger. */
  function Play(ctx: Option<Context>, t: Trigger, time: real): (r: seq<Generator>)
    ensures ctx.None? <==> r == []
  {
    match t
    case Kick => PlayKick(ctx, time)
    case Bass(f) => Play808(ctx, time, f)
    case Snare => PlaySnare(ctx, time)
    case HiHat(open) => PlayHiHat(ctx, time, open)
    case Cowbell => PlayCowbell(ctx, time)
  }

  /** The same generator with its start, stop and every automation time moved by `d`. */
  function Shift(g: Generator, d: real): Generator
  {
    var pitch := if g.pitch.Sweep? then g.pitch.(until := g.pitch.until + d) else g.pitch;
    g.(pitch := pitch, gain := g.gain.(until := g.gain.until + d), start := g.start + d, stop := g.stop + d)
  }

  function ShiftAll(gs: seq<Generator>, d: real): (r: seq<Generator>)
    ensures |r| == |gs| && forall i :: 0 <= i < |gs| ==> r[i] == Shift(gs[i], d)
  {
    seq(|gs|, i requires 0 <= i < |gs| => Shift(gs[i], d))
  }

  /**
   * Every voice is silent without a context; with one, every generator it starts begins exactly at the
   * passed time, sounds for at most the voice's lifetime, and one of them lasts exactly that long.
   */
  lemma PlayTimes(ctx: Option<Context>, t: Trigger, time: real)
    ensures ctx.None? ==> Play(ctx, t, time) == []
    ensures ctx.Some? ==> Play(ctx, t, time) != []
    ensures forall g :: g in Play(ctx, t, time) ==> g.start == time && time < g.stop <= time + Lifetime(t)
    ensures ctx.Some? ==> exists g :: g in Play(ctx, t, time) && g.stop == time + Lifetime(t)
  {
    if ctx.Some? {
      var r := Play(ctx, t, time);
      assert r[0] in r;
      if t.Snare? || t.Cowbell? {
        assert r[1] in r;
      }
    }
  }

  /**
   * Voices schedule everything relative to the time they are given and read no clock: triggering at
   * `time + d` produces exactly the generators of triggering at `time`, moved by `d`.
   */
  lemma PlayShift(ctx: Option<Context>, t: Trigger, time: real, d: real)
    ensures Play(ctx, t, time + d) == ShiftAll(Play(ctx, t, time), d)
  {
  }
}
