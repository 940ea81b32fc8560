# Phonk drum machine — a verified model of its scheduling core

The page `pages/index.js` is a browser drum machine with these parts:

- Five voices, synthesized from oscillators and noise: kick, 808 bass, hi-hat, snare/clap and cowbell.
- A 16-step pattern at 130 BPM.
- A lookahead scheduler. On each dispatch it reads the audio clock once and places a whole bar of voice triggers at absolute future times.
- A transport, which handles PLAY and STOP and three display counters:
  - the beat indicator;
  - the loop progress bar;
  - the lyric caption, which follows its own timer.

This project models that core in Dafny and proves what it promises.

- `wrappers.dfy`: an optional value. It stands for a reference that may be null, such as the audio context.
- `voices.dfy` (module `Voices`): each voice as the scalar parameters it hands to the audio backend. For each generator it starts, those are:
  - the waveform or noise buffer;
  - the pitch automation;
  - the filter;
  - the gain envelope;
  - the start and stop times.

  `Play` is the call the scheduler makes for one trigger.
- `pattern.dfy` (module `Pattern`): the trigger rules of a step (`Triggers`), the bar written out as a table (`Arrangement`), and the rules proved per voice.
- `scheduler.dfy` (module `Scheduler`):
  - `ScheduleBeat`, the dispatch loop, proved against the specification functions `Window`/`Bar` and `Render`;
  - lemmas on timing, membership, order, synchrony and how consecutive bars tile the grid.
- `lyrics.dfy` (module `LyricTrack`): the caption table, the cue chain, and its cycle time.
- `transport.dfy` (module `Transport`):
  - the JavaScript remainder, the progress formula and the beat-indicator step;
  - the class `Player`. Its fields are the page's state and refs (`isPlaying`, the audio context, `startTimeRef`, `beatIndex`, `progress`, `currentLyricIndex`). They also include the lyric chain's closure variables `currentIdx` and `lyricTime`, and whether the timers are armed.
  - Every timer callback is a tick method of `Player`. The wall clock and the audio clock are parameters.

Times are `real`, so the step arithmetic is exact: a step is `60/130/4` s. The loop clock, the progress tick and the lyric durations are integer milliseconds. The timer delays the page requests are real numbers of milliseconds (`DispatchPeriodMs`, `BeatPeriodMs`). `Scheduler.TimerDelay` gives the whole-millisecond delay a browser timer actually uses.

Timing of the dispatch:

- The dispatch interval is `(60 / BPM) * 4 * 1000` ms, four beats (pages/index.js:270-272).
- Each dispatch schedules four beats ahead (pages/index.js:220): 16 steps, one bar. So the interval equals the window each dispatch schedules.
- At the requested period, no step is scheduled twice. `Scheduler.ConsecutiveBars` proves that the bar a dispatch schedules and the bar of the next dispatch, one requested period later, are together the first 32 steps of one continuous grid.
- The browser's timer truncates that delay to 1846 ms. `Scheduler.DispatchTimerEarly` proves that each real dispatch therefore opens its bar 1/6500 s before the grid of the previous one would reach step 16.

## Model

| member | source | states |
|---|---|---|
| Voices.PlayKick | pages/index.js:46-64 | Without a context it starts nothing. With one it starts one unfiltered, undistorted sine at `time`, stopped at `time + 0.3`. Its pitch falls from 150 Hz to 40 Hz by `time + 0.1`. Its gain decays from 1 to the 0.01 floor, reached as it stops. |
| Voices.Play808 | pages/index.js:67-96 | Without a context it starts nothing. With one it starts one distorted, unfiltered sine from `time` to `time + 0.5`. Its pitch falls from `freq` to exactly half of `freq` by `time + 0.4`. Its gain runs from 0.8 to the floor at the stop time. The default `freq` is 55. |
| Voices.PlayHiHat | pages/index.js:99-129 | Without a context it starts nothing. With one it starts an undistorted 0.1 s noise buffer through a high-pass. Open: 7000 Hz cutoff, peak 0.15, stop at `time + 0.15`. Closed: 10000 Hz, peak 0.1, stop at `time + 0.05`. Closed is the default. |
| Voices.PlaySnare | pages/index.js:132-178 | Without a context it starts nothing. With one it starts an undistorted 0.2 s noise layer, band-passed at 3000 Hz, peak 0.5, ending at `time + 0.2`. It also starts an unfiltered, undistorted sine tone layer falling from 200 Hz to 100 Hz, peak 0.4, ending at `time + 0.1`. Both start at `time`. |
| Voices.PlayCowbell | pages/index.js:181-210 | Without a context it starts nothing. With one it starts two undistorted square oscillators at 587 Hz and 845 Hz. They share one envelope (0.25 down to the floor at `time + 0.3`) and an 800 Hz band-pass. Both run from `time` to `time + 0.3`. |
| Voices.PlayTimes | pages/index.js:46-210 | Each voice is a no-op without a context. With one, it starts at least one generator, and every generator begins exactly at the passed time. It stops no later than the voice's lifetime after that time, and at least one generator lasts exactly that long. The lifetimes are kick 0.3, 808 0.5, snare 0.2, hi-hat 0.15 open or 0.05 closed, and cowbell 0.3. |
| Voices.Play | pages/index.js:226-243 | Defines the voice call for one trigger: kick, 808 with its frequency, snare, hi-hat with its openness, or cowbell. It starts nothing exactly when there is no context. `Voices.PlayTimes` and `Voices.PlayShift` state its timing. |
| Voices.PlayShift | pages/index.js:46-210 | Voices read no clock. Triggering at `time + d` yields exactly the generators of triggering at `time`, with every start, stop and automation time moved by `d`. |
| Pattern.Triggers | pages/index.js:225-244 | Defines the step's decision table: the voices the four conditions fire, in call order. At most four voices fire. `Pattern.PatternRules` and `Pattern.TriggersMatchArrangement` state its rules in full. |
| Pattern.BassFreq | pages/index.js:228 | The 808's frequency at a kick step is 46 Hz on step 8 and 55 Hz on every other step. |
| Pattern.TriggersMatchArrangement | pages/index.js:225-244 | At each of the 16 steps, the trigger rules give exactly the notated bar, in call order. |
| Pattern.PatternRules | pages/index.js:225-244 | Each rule holds in both directions: <br>• Kick fires iff step mod 4 = 0. <br>• The 808 fires with frequency f iff step mod 4 = 0 and f is that step's frequency. <br>• Snare fires iff the step is 4 or 12. <br>• A hi-hat with openness o fires iff the step is even and o is (step mod 4 = 2). <br>• Cowbell fires iff the step is 2, 6, 10 or 14. <br>• An odd step fires nothing. |
| Pattern.KickSteps | pages/index.js:226-229 | The kick fires on steps {0, 4, 8, 12} of the bar. The 55 Hz 808 fires on {0, 4, 12} and the 46 Hz one on {8}. |
| Pattern.SnareSteps | pages/index.js:232-234 | The snare fires on steps {4, 12}: two per bar. |
| Pattern.HiHatSteps | pages/index.js:237-239 | Closed hi-hats fire on {0, 4, 8, 12}; open ones on {2, 6, 10, 14}. |
| Pattern.CowbellSteps | pages/index.js:242-244 | The cowbell fires on {2, 6, 10, 14}: four per bar. |
| Pattern.TriggersDistinct | pages/index.js:225-244 | No step triggers the same voice twice. |
| Scheduler.ScheduleBeat | pages/index.js:213-246 | Without a context or while not playing, it schedules and starts nothing. Otherwise the events are exactly the bar from `now`, and the sounds are those events' voices, in order. Every event time lies in [now, now + one dispatch period). |
| Scheduler.StepTriggers | pages/index.js:225-244 | The four conditional voice calls of one loop iteration produce exactly the rule-defined triggers of the step, in order. |
| Scheduler.RenderSilent | pages/index.js:215 | Without an audio context, no events produce any sound. |
| Scheduler.RenderWithin | pages/index.js:217-244 | For events timed within [lo, hi], every generator started starts within [lo, hi], at the time of some event. It stops at most 0.5 s after it starts. |
| Scheduler.StepInSync | pages/index.js:220-223 | Every generator started for one step starts exactly at that step's timestamp. |
| Scheduler.BarSounds | pages/index.js:213-246 | Every generator a dispatch starts begins in [now, now + one dispatch period) and ends within 0.5 s. |
| Scheduler.StepTime | pages/index.js:221-222 | Defines step i's timestamp, `now + i * (60/BPM) / 4`. It is never before `now`. `Scheduler.StepTimeIncreasing` states that it strictly increases. |
| Scheduler.TimerDelay | pages/index.js:270-280 | The whole-millisecond delay a browser timer uses for a requested delay: the requested delay rounded down. |
| Scheduler.DispatchTimerEarly | pages/index.js:270-272 | The dispatch timer really fires every 1846 ms. That is 1/6500 s before 16 steps have elapsed on the grid of the previous dispatch. |
| Scheduler.StepTimeIncreasing | pages/index.js:221 | Step timestamps are at or after `now` and strictly increase with the step index. |
| Scheduler.StepMembership | pages/index.js:220-244 | An event belongs to step i exactly when it is one of step i's triggers at step i's timestamp. |
| Scheduler.WindowMembership | pages/index.js:220-244 | An event belongs to the first n steps exactly when it is, for some i < n, a trigger of step i at step i's timestamp. |
| Scheduler.BarMembership | pages/index.js:220-244 | One dispatch schedules exactly the steps i = 0..15. An event is in the bar iff its time is some step's timestamp and its trigger fires at that step. |
| Scheduler.WindowOrdered | pages/index.js:220-223 | A window's events are in non-decreasing time order, from `now` to the time of its last step. |
| Scheduler.BarInWindow | pages/index.js:220-223 | Every event of a bar is at or after `now` and strictly before `now` plus the dispatch period. |
| Scheduler.ConsecutiveBars | pages/index.js:270-275 | The bar of a dispatch, followed by the bar of the next dispatch one requested period later, is exactly steps 0..31 of one grid. There is no gap and no double-scheduled step. |
| Scheduler.WindowSplit | pages/index.js:270-275 | A window of whole bars, followed by the window opened at its next step's time, is the longer window. |
| LyricTrack.NextCue | pages/index.js:306 | The next cue is a valid index. It is the following cue, or the first one after the last. |
| LyricTrack.CueAfterCycles | pages/index.js:296-309 | After k advances from the first cue, the chain is at cue k mod 8. |
| LyricTrack.CycleLength | pages/index.js:24-33 | A full pass over the eight captions lasts 18000 ms. |
| LyricTrack.ShownTimePeriodic | pages/index.js:296-309 | Every additional pass adds exactly 18000 ms. That does not divide the 60000 ms loop, so captions drift against the loop. |
| Transport.JsRem | pages/index.js:285 | JavaScript's `%`: the dividend equals the truncated quotient times the divisor plus the remainder. The remainder is in [0, b) for a non-negative dividend and in (-b, 0] for a negative one. |
| Transport.Progress | pages/index.js:284-286 | Progress is in [0, 100) for non-negative elapsed time and in (-100, 0] for negative elapsed time. Within the first loop it is elapsed/60000 as a percentage. |
| Transport.ProgressPeriodic | pages/index.js:284-286 | For non-negative elapsed time, progress repeats every 60000 ms, and it is 0 exactly when the elapsed time is a multiple of 60000 ms. |
| Transport.IndicatorPerDispatch | pages/index.js:270-280 | The indicator's requested delay is one beat, four per requested dispatch period. With the whole-millisecond delays the timers use (461 ms and 1846 ms), four indicator ticks last 2 ms less than one dispatch period. |
| Transport.NextBeat | pages/index.js:279 | The indicator steps 0→1→2→3→0 and always stays in [0, 4). |
| Transport.BeatAfterCycles | pages/index.js:278-280 | After k indicator ticks from 0, it shows k mod 4. |
| Transport.Player.constructor | pages/index.js:5-18 | The initial state: <br>• not playing, no audio context, no timers; <br>• start time unset (reads as 0); <br>• indicator, progress and caption all 0. |
| Transport.Player.Start | pages/index.js:258-312 | PLAY: <br>• creates the audio context only if there is none; <br>• sets playing; <br>• sets the start time to the wall clock; <br>• resets progress and the caption to 0 and arms the timers; <br>• restarts the lyric chain at cue 0 with no time shown; <br>• keeps the beat indicator; <br>• returns exactly the first bar from the audio clock and its voices; <br>• returns the 100 ms delay of the first lyric cue (line 311). The state invariant holds. |
| Transport.Player.Stop | pages/index.js:314-333 | STOP, from any valid state: <br>• not playing, timers cancelled; <br>• indicator, progress and caption are 0; <br>• audio context, start time and lyric chain unchanged. |
| Transport.Player.Dispatch | pages/index.js:270-275 | Fires only while the timers are armed. A dispatch timer firing schedules nothing while stopped or before any context exists. Otherwise it schedules exactly one bar from the audio clock, with its voices. |
| Transport.Player.BeatTick | pages/index.js:278-280 | Fires only while the timers are armed. The indicator advances to the next beat modulo 4. Nothing else changes. |
| Transport.Player.ProgressTick | pages/index.js:283-293 | Fires only while the timers are armed. Progress becomes the loop position of the elapsed time. Once a whole loop has elapsed, the start time becomes the tick's wall time and the caption returns to 0; otherwise both stay put. |
| Transport.Player.LyricTick | pages/index.js:299-309 | Fires only while the timers are armed. While stopped, it changes nothing and stops the chain. While playing, it shows the pending cue, re-arms after that cue's duration, adds the duration to the chain's time, and moves the chain to the next cue. |
| Transport.LyricChainCycles | pages/index.js:296-309 | In any valid state, the chain's pending cue is the number of cues shown mod 8. Each full cycle of cues accounts for 18000 ms of the chain's time. |

## Left out

- The Web Audio node graph (creating, connecting and disconnecting nodes) belongs to the host library. Only the parameters each voice passes are modelled.
- It is assumed that an exponential ramp reaches its target at the given time. The ramp's actual curve is not modelled.
- Play808 models the WaveShaper distortion as a flag. The values of its `tanh` curve (pages/index.js:76-80) are floating-point transcendental math.
- The noise-buffer samples (pages/index.js:107-109, 140-142) and the visualizer heights come from `Math.random`, so they are not modelled. A noise source is modelled by its length in frames (`sampleRate * 0.1` or `sampleRate * 0.2`).
- Voices.PlayHiHat: the open hi-hat's buffer holds 0.1 s of noise (pages/index.js:103) but is stopped at `time + 0.15` (line 128). It therefore falls silent at `time + 0.1` while its gain is still above the floor. The model states the stop time and buffer length, not when the sound actually ends.
- Voices.Play808: there is no precondition on `freq`. The sounding guarantee `Sounds` is stated only for `freq > 0`. Every frequency the scheduler passes (55 or 46) is positive.
- Transport.IndicatorPerDispatch, Scheduler.ConsecutiveBars: both lemmas are about the delays the code requests. The page's timers round those down, to 1846 ms and 461 ms. So the real dispatches drift 1/6500 s per bar ahead of the grid (`Scheduler.DispatchTimerEarly`), and the indicator drifts 2 ms per bar against the dispatch. The model does not track the accumulated drift over many dispatches.
- Timers are modelled as tick methods, with the timer state as one `timersRunning` flag:
  - arming and clearing intervals and timeouts (`setInterval`, `setTimeout`);
  - their firing order;
  - their period accuracy.
- Transport.Player.Start: calling it again while already playing would leak the previous intervals in the real page. The model only re-arms the same flag. The code has no guard against a double start, and the model adds none.
- Clocks are parameters: `Date.now()` is the `wallNow` argument and the audio context's `currentTime` is `audioNow`.
- Transport.Player.ProgressTick reads the wall clock twice in the real page, once to compute elapsed time and once to reset the start time. The model treats both reads as the same instant.
- PLAY, scheduleBeat and the lyric chain see the playing state through a parameter or field, not through React's closure capture. As written, `scheduleBeat` and `advanceLyric` inside `startMusic` read the `isPlaying` captured when the callback was built, which at PLAY time is false.
- The audio context's `resume` and `close` calls and its `state`, the unmount cleanup, the `webkitAudioContext` fallback and the master gain set-up at creation (pages/index.js:37-40) are host I/O. The model tracks only whether a context exists and its sample rate.
- The volume slider and the master gain node (pages/index.js:336-340) are UI plumbing; the master gain is not modelled.
- The React hooks, the JSX render, `Head` and the particles are UI and are not modelled.
- Floating-point rounding of times and frequencies is not modelled; the model's arithmetic is exact. JavaScript's truncating `%` is modelled exactly (`Transport.JsRem`).
- `startTimeRef` is null before the first PLAY. The only place it is read is the progress tick, which `Date.now() - null` makes a subtraction of 0. The model therefore starts it at 0.
