/**
 * The transport: the play/stop state of the drum machine and the three display counters (beat
 * indicator, loop progress, lyric caption) that its timers update. Each timer callback is a tick
 * method; the wall clock and the audio clock are passed in as parameters.
 */
module Transport {
  import opened Wrappers
  import opened Voices
  import opened Scheduler
  import opened LyricTrack

  /** Length of the song loop, in milliseconds. */
  const SongMs: int := 60000

  /** The delay the page asks of the beat indicator timer, in milliseconds: one beat. */
  const BeatPeriodMs: real := 60000.0 / Bpm

  /** Integer division truncated toward zero, the quotient that goes with JavaScript's `%`. */
  function TruncDiv(a: int, b: int): int
    requires b > 0
  {
    if a >= 0 then a / b else -((-a) / b)
  }

  /**
   * JavaScript's `%` on integers: the dividend minus the truncated quotient times the divisor, so the
   * remainder has the sign of `a` and a magnitude below `b`.
   */
  function JsRem(a: int, b: int): (r: int)
    requires b > 0
    ensures a >= 0 ==> 0 <= r < b
    ensures a < 0 ==> -b < r <= 0
    ensures a == TruncDiv(a, b) * b + r
  {
    if a >= 0 then a % b else -((-a) % b)
  }

  /**
   * The indicator is asked to tick once per beat, four times per requested dispatch period. With the
   * whole-millisecond delays the timers really use (461 ms and 1846 ms), four ticks fall 2 ms short
   * of one dispatch, so the indicator drifts against the bars.
   */
  lemma IndicatorPerDispatch()
    ensures 4.0 * BeatPeriodMs == DispatchPeriodMs
    ensures TimerDelay(BeatPeriodMs) == 461 && TimerDelay(DispatchPeriodMs) == 1846
    ensures 4 * TimerDelay(BeatPeriodMs) + 2 == TimerDelay(DispatchPeriodMs)
  {
    assert 461.0 <= BeatPeriodMs < 462.0;
    assert 1846.0 <= DispatchPeriodMs < 1847.0;
  }

  /** The next value of the beat indicator. */
  function NextBeat(b: nat): (r: nat)
    ensures r < 4
    ensures b < 3 ==> r == b + 1
    ensures b == 3 ==> r == 0
  {
    (b + 1) % 4
  }

  /** The beat indicator after k ticks from 0. */
  function BeatAfter(k: nat): nat
  {
    if k == 0 then 0 else NextBeat(BeatAfter(k - 1))
  }

  /** The indicator counts the beats of the bar: after k ticks it shows k mod 4. */
  lemma {:induction false} BeatAfterCycles(k: nat)
    ensures BeatAfter(k) == k % 4
  {
    if k > 0 {
      BeatAfterCycles(k - 1);
    }
  }

  /** The progress bar, in percent, for `elapsed` milliseconds since the loop started. */
  function Progress(elapsed: int): (r: real)
    ensures elapsed >= 0 ==> 0.0 <= r < 100.0
    ensures elapsed < 0 ==> -100.0 < r <= 0.0
    ensures 0 <= elapsed < SongMs ==> r * (SongMs as real) == (elapsed as real) * 100.0
  {
    (JsRem(elapsed, SongMs) as real) / (SongMs as real) * 100.0
  }

  /**
   * For non-negative elapsed time, progress repeats every loop length and is 0 exactly at the loop
   * boundaries.
   */
  lemma ProgressPeriodic(elapsed: int)
    requires elapsed >= 0
    ensures Progress(elapsed + SongMs) == Progress(elapsed)
    ensures Progress(elapsed) == 0.0 <==> elapsed % SongMs == 0
  {
    assert (elapsed + SongMs) % SongMs == elapsed % SongMs;
  }

  class Player {
    /** Whether the machine is playing. */
    var playing: bool
    /** The audio context, created on the first start and then kept. */
    var audio: Option<Context>
    /** Wall-clock start of the current loop, in milliseconds (a reference that is never set reads as 0). */
    var startTime: int
    /** The beat indicator, 0 to 3. */
    var beatIndex: nat
    /** The progress bar, in percent. */
    var progress: real
    /** The caption on display. */
    var lyricIndex: nat
    /** The cue the lyric chain shows next. */
    var cue: nat
    /** Total time of the cues the lyric chain has shown since the last start, in milliseconds. */
    var lyricTime: nat
    /** Whether the dispatch, indicator, progress and lyric timers are running. */
    var timersRunning: bool
    /** How many cues the lyric chain has shown since the last start. */
    ghost var shown: nat

    ghost predicate Valid()
      reads this
    {
      && beatIndex < 4
      && lyricIndex < |Lyrics|
      && cue == CueAfter(shown)
      && lyricTime == ShownTime(shown)
    }

    constructor ()
      ensures Valid()
      ensures !playing && !timersRunning && audio.None? && startTime == 0
      ensures beatIndex == 0 && progress == 0.0 && lyricIndex == 0
      ensures cue == 0 && lyricTime == 0 && shown == 0
    {
      playing, timersRunning, audio, startTime := false, false, None, 0;
      beatIndex, progress, lyricIndex := 0, 0.0, 0;
      cue, lyricTime, shown := 0, 0, 0;
    }

    /**
     * PLAY: create the audio context if there is none, mark the machine playing, restart the loop clock
     * and the caption, arm the timers, dispatch the first bar, and restart the lyric chain, whose first
     * cue is due after `firstCue` milliseconds. The beat indicator keeps its value.
     */
    method Start(wallNow: int, audioNow: real, sampleRate: real)
      returns (events: seq<ScheduledEvent>, sounds: seq<Generator>, firstCue: nat)
      requires Valid()
      modifies this
      ensures Valid()
      ensures audio == (if old(audio).None? then Some(Context(sampleRate)) else old(audio))
      ensures playing && timersRunning
      ensures startTime == wallNow && progress == 0.0 && lyricIndex == 0
      ensures cue == 0 && lyricTime == 0 && shown == 0
      ensures beatIndex == old(beatIndex)
      ensures events == Bar(audioNow) && sounds == Render(audio, events)
      ensures firstCue == FirstCueDelayMs
    {
      if audio.None? {
        audio := Some(Context(sampleRate));
      }
      playing, startTime, lyricIndex, progress := true, wallNow, 0, 0.0;
      timersRunning := true;
      cue, lyricTime, shown := 0, 0, 0;
      events, sounds := ScheduleBeat(audio, playing, audioNow);
      firstCue := FirstCueDelayMs;
    }

    /** STOP: mark the machine stopped, cancel the timers and zero the three counters, whatever the prior state. */
    method Stop()
      requires Valid()
      modifies this
      ensures Valid()
      ensures !playing && !timersRunning
      ensures beatIndex == 0 && progress == 0.0 && lyricIndex == 0
      ensures audio == old(audio) && startTime == old(startTime)
      ensures cue == old(cue) && lyricTime == old(lyricTime) && shown == old(shown)
    {
      playing := false;
      timersRunning := false;
      beatIndex := 0;
      progress := 0.0;
      lyricIndex := 0;
    }

    /** The dispatch timer: schedule the next bar at the audio clock's `audioNow`. */
    method Dispatch(audioNow: real) returns (events: seq<ScheduledEvent>, sounds: seq<Generator>)
      requires timersRunning
      ensures audio.None? || !playing ==> events == [] && sounds == []
      ensures audio.Some? && playing ==> events == Bar(audioNow) && sounds == Render(audio, events)
    {
      events, sounds := ScheduleBeat(audio, playing, audioNow);
    }

    /** The beat indicator timer. */
    method BeatTick()
      requires Valid() && timersRunning
      modifies this`beatIndex
      ensures Valid()
      ensures beatIndex == NextBeat(old(beatIndex))
    {
      beatIndex := (beatIndex + 1) % 4;
    }

    /**
     * The progress timer at wall time `wallNow`: show the position in the loop, and once a whole loop
     * has elapsed restart the loop clock and the caption.
     */
    method ProgressTick(wallNow: int)
      requires Valid() && timersRunning
      modifies this`progress, this`startTime, this`lyricIndex
      ensures Valid()
      ensures progress == Progress(wallNow - old(startTime))
      ensures wallNow - old(startTime) >= SongMs ==> startTime == wallNow && lyricIndex == 0
      ensures wallNow - old(startTime) < SongMs ==> startTime == old(startTime) && lyricIndex == old(lyricIndex)
    {
      var elapsed := wallNow - startTime;
      progress := (JsRem(elapsed, SongMs) as real) / (SongMs as real) * 100.0;
      if elapsed >= SongMs {
        startTime := wallNow;
        lyricIndex := 0;
      }
    }

    /**
     * The lyric timer: when playing, show the pending cue, move the chain to the next one and return
     * the delay before the timer fires again; when stopped, do nothing and do not re-arm.
     */
    method LyricTick() returns (delay: Option<nat>)
      requires Valid() && timersRunning
      modifies this`lyricIndex, this`cue, this`lyricTime, this`shown
      ensures Valid()
      ensures !playing ==> delay.None? && lyricIndex == old(lyricIndex) && cue == old(cue) && lyricTime == old(lyricTime) && shown == old(shown)
      ensures playing ==> lyricIndex == old(cue) && delay == Some(Lyrics[old(cue)].duration)
      ensures playing ==> cue == NextCue(old(cue)) && shown == old(shown) + 1
      ensures playing ==> lyricTime == old(lyricTime) + Lyrics[old(cue)].duration
    {
      if !playing {
        return None;
      }
      lyricIndex := cue;
      var duration := Lyrics[cue].duration;
      lyricTime := lyricTime + duration;
      cue := (cue + 1) % |Lyrics|;
      shown := shown + 1;
      delay := Some(duration);
    }
  }

  /**
   * The lyric chain walks the track cyclically: its pending cue is the number of cues shown mod the
   * track length, and every full cycle adds 18 seconds of display time.
   */
  lemma LyricChainCycles(p: Player)
    requires p.Valid()
    ensures p.cue == p.shown % |Lyrics|
    ensures p.shown >= |Lyrics| ==> p.lyricTime == ShownTime(p.shown - |Lyrics|) + 18000
  {
    CueAfterCycles(p.shown);
    if p.shown >= |Lyrics| {
      ShownTimePeriodic(p.shown - |Lyrics|);
    }
  }
}
