/**
 * The lookahead beat scheduler: one dispatch reads the audio clock once and schedules a whole bar,
 * the 16 steps at `now + i * step` for i = 0..15, calling each triggered voice with its step's time.
 */
module Scheduler {
  import opened Wrappers
  import opened Voices
  import opened Pattern

  const Bpm: real := 130.0

  /** One beat, in seconds. */
  const BeatSeconds: real := 60.0 / Bpm

  /** The delay the page asks of the dispatch timer, in milliseconds: four beats. */
  const DispatchPeriodMs: real := (60.0 / Bpm) * 4.0 * 1000.0

  /** The browser's timers take whole milliseconds: the delay actually used for a requested one. */
  function TimerDelay(requested: real): (d: int)
    requires requested >= 0.0
    ensures d as real <= requested < d as real + 1.0
  {
    requested.Floor
  }

  /**
   * The dispatch timer really fires every 1846 ms, a little before the 16 steps of a bar have elapsed:
   * each later dispatch opens its bar 1/6500 s ahead of the grid of the previous one.
   */
  lemma DispatchTimerEarly(now: real)
    ensures TimerDelay(DispatchPeriodMs) == 1846
    ensures StepTime(now, 16) - (now + (TimerDelay(DispatchPeriodMs) as real) / 1000.0) == 1.0 / 6500.0
  {
    assert 1846.0 <= DispatchPeriodMs < 1847.0;
  }

  /** A voice trigger placed at an absolute time on the audio clock. */
  datatype ScheduledEvent = ScheduledEvent(trigger: Trigger, time: real)

  /** The audio-clock time of step `i` of the window opened by a dispatch at `now`. */
  function StepTime(now: real, i: nat): (t: real)
    ensures now <= t
  {
    now + (i as real) * BeatSeconds / 4.0
  }

  /** Triggers placed at one time, in order. */
  function Stamp(ts: seq<Trigger>, time: real): (r: seq<ScheduledEvent>)
  {
    seq(|ts|, k requires 0 <= k < |ts| => ScheduledEvent(ts[k], time))
  }

  /** A stamped sequence holds the triggers, in order, each at the given time. */
  lemma StampElements(ts: seq<Trigger>, time: real)
    ensures |Stamp(ts, time)| == |ts|
    ensures forall k :: 0 <= k < |ts| ==> Stamp(ts, time)[k] == ScheduledEvent(ts[k], time)
  {
  }

  /** The events of step `i`: the triggers of its position in the bar, all stamped with the step's time. */
  function StepEvents(now: real, i: nat): seq<ScheduledEvent>
  {
    Stamp(Triggers(i % 16), StepTime(now, i))
  }

  /** All events of steps 0 .. n-1 of the window opened at `now`, step by step. */
  function Window(now: real, n: nat): seq<ScheduledEvent>
  {
    if n == 0 then [] else Window(now, n - 1) + StepEvents(now, n - 1)
  }

  /** The bar one dispatch schedules. */
  function Bar(now: real): seq<ScheduledEvent>
  {
    Window(now, 16)
  }

  /** The generators the voices start for a sequence of events, in order. */
  function Render(ctx: Option<Context>, events: seq<ScheduledEvent>): seq<Generator>
  {
    if events == [] then []
    else Play(ctx, events[0].trigger, events[0].time) + Render(ctx, events[1..])
  }

  /**
   * One dispatch. Without an audio context, or when the transport is not playing, it schedules nothing;
   * otherwise it schedules exactly one bar from the audio clock's `now`, and starts for each event the
   * generators of its voice. Every event lies in the window [now, now + one bar).
   */
  method ScheduleBeat(ctx: Option<Context>, playing: bool, now: real)
    returns (events: seq<ScheduledEvent>, sounds: seq<Generator>)
    ensures ctx.None? || !playing ==> events == [] && sounds == []
    ensures ctx.Some? && playing ==> events == Bar(now) && sounds == Render(ctx, events)
    ensures forall e :: e in events ==> now <= e.time < now + DispatchPeriodMs / 1000.0
  {
    events, sounds := [], [];
    if ctx.None? || !playing {
      return;
    }
    for i := 0 to 16
      invariant events == Window(now, i)
      invariant sounds == Render(ctx, events)
    {
      var time := now + (i as real) * BeatSeconds / 4.0;
      var beat := i % 16;
      var fired := StepTriggers(beat);
      var step := Stamp(fired, time);
      WindowStep(now, i, events, step);
      RenderAppend(ctx, events, step);
      events, sounds := events + step, sounds + Render(ctx, step);
    }
    BarInWindow(now);
  }

  /**
   * The voices one step of the loop triggers, in the order it calls them: kick and 808 on the beats,
   * snare on the backbeats, a hi-hat on every eighth (open on the off-beat eighths), cowbell on the
   * off-beat eighths.
   */
  method StepTriggers(beat: nat) returns (fired: seq<Trigger>)
    ensures fired == Triggers(beat)
  {
    fired := [];
    if beat % 4 == 0 {
      fired := fired + [Kick, Bass(if beat == 0 then 55.0 else if beat == 8 then 46.0 else 55.0)];
    }
    if beat == 4 || beat == 12 {
      fired := fired + [Snare];
    }
    if beat % 2 == 0 {
      fired := fired + [HiHat(beat % 4 == 2)];
    }
    if beat == 2 || beat == 6 || beat == 10 || beat == 14 {
      fired := fired + [Cowbell];
    }
  }

  /** Appending step i's events to the window of steps 0 .. i-1 gives the next window. */
  lemma WindowStep(now: real, i: nat, events: seq<ScheduledEvent>, step: seq<ScheduledEvent>)
    requires events == Window(now, i)
    requires step == Stamp(Triggers(i % 16), now + (i as real) * BeatSeconds / 4.0)
    ensures events + step == Window(now, i + 1)
  {
  }

  lemma {:induction false} RenderAppend(ctx: Option<Context>, a: seq<ScheduledEvent>, b: seq<ScheduledEvent>)
    ensures Render(ctx, a + b) == Render(ctx, a) + Render(ctx, b)
  {
    if a != [] {
      assert (a + b)[1..] == a[1..] + b;
      RenderAppend(ctx, a[1..], b);
    } else {
      assert a + b == b;
    }
  }

  /** Without an audio context the voices start nothing, whatever the events. */
  lemma {:induction false} RenderSilent(events: seq<ScheduledEvent>)
    ensures Render(None, events) == []
  {
    if events != [] {
      RenderSilent(events[1..]);
    }
  }

  /**
   * The generators started for events timed within [lo, hi] start within [lo, hi], each exactly at the
   * time of an event, and stop at most half a second (the longest voice, the 808) after they start.
   */
  lemma {:induction false} RenderWithin(ctx: Option<Context>, events: seq<ScheduledEvent>, lo: real, hi: real)
    requires AllWithin(events, lo, hi)
    ensures forall g :: g in Render(ctx, events) ==> lo <= g.start <= hi && g.start < g.stop <= g.start + 0.5
    ensures forall g :: g in Render(ctx, events) ==> exists e :: e in events && g.start == e.time
  {
    if events != [] {
      var e := events[0];
      PlayTimes(ctx, e.trigger, e.time);
      RenderWithin(ctx, events[1..], lo, hi);
      assert Render(ctx, events) == Play(ctx, e.trigger, e.time) + Render(ctx, events[1..]);
      forall g | g in Render(ctx, events[1..]) ensures exists e' :: e' in events && g.start == e'.time {
        var e' :| e' in events[1..] && g.start == e'.time;
        assert e' in events;
      }
    }
  }

  /**
   * Voices that share a step start in sync: every generator started for step i of a dispatch starts at
   * exactly that step's time.
   */
  lemma StepInSync(ctx: Option<Context>, now: real, i: nat)
    ensures forall g :: g in Render(ctx, StepEvents(now, i)) ==> g.start == StepTime(now, i)
  {
    RenderWithin(ctx, StepEvents(now, i), StepTime(now, i), StepTime(now, i));
  }

  /**
   * Everything one dispatch starts lies ahead of the clock reading it was computed from and within the
   * bar it covers: it starts in [now, now + one bar) and has finished half a second after.
   */
  lemma BarSounds(ctx: Option<Context>, now: real)
    ensures forall g :: g in Render(ctx, Bar(now)) ==>
      now <= g.start < now + DispatchPeriodMs / 1000.0 && g.stop <= g.start + 0.5
  {
    var last := StepTime(now, 15);
    WindowOrdered(now, 16);
    RenderWithin(ctx, Bar(now), now, last);
    assert last < now + DispatchPeriodMs / 1000.0;
  }

  /** Step times strictly increase with the step and none lies before the dispatch's `now`. */
  lemma StepTimeIncreasing(now: real, i: nat, j: nat)
    ensures now <= StepTime(now, i)
    ensures i < j ==> StepTime(now, i) < StepTime(now, j)
  {
  }

  /** `e` is one of the triggers of step i of the bar, at that step's time. */
  predicate AtStep(now: real, i: nat, e: ScheduledEvent)
  {
    e.time == StepTime(now, i) && e.trigger in Triggers(i)
  }

  /** A step's events are its triggers at its time, and nothing else. */
  lemma StepMembership(now: real, i: nat, e: ScheduledEvent)
    requires i < 16
    ensures e in StepEvents(now, i) <==> AtStep(now, i, e)
  {
    var ts, step := Triggers(i), StepEvents(now, i);
    assert i % 16 == i;
    assert step == Stamp(ts, StepTime(now, i));
    if e in step {
      var k :| 0 <= k < |step| && step[k] == e;
      assert ts[k] == e.trigger;
    }
    if AtStep(now, i, e) {
      var k :| 0 <= k < |ts| && ts[k] == e.trigger;
      assert step[k] == e;
    }
  }

  /**
   * An event belongs to the first n steps of a bar's window exactly when its time is that of some step
   * i < n and its trigger is one of that step's triggers.
   */
  lemma {:induction false} WindowMembership(now: real, n: nat, e: ScheduledEvent)
    requires n <= 16
    ensures e in Window(now, n) <==> exists i :: 0 <= i < n && AtStep(now, i, e)
  {
    if n > 0 {
      WindowMembership(now, n - 1, e);
      StepMembership(now, n - 1, e);
      assert Window(now, n) == Window(now, n - 1) + StepEvents(now, n - 1);
      if e in Window(now, n) && !(e in Window(now, n - 1)) {
        assert AtStep(now, n - 1, e);
      }
      if exists i :: 0 <= i < n && AtStep(now, i, e) {
        var i :| 0 <= i < n && AtStep(now, i, e);
        if i < n - 1 {
          assert e in Window(now, n - 1);
        }
      }
    }
  }

  /** Events of a bar: exactly the pattern's triggers at the pattern's steps, each at its step's time. */
  lemma BarMembership(now: real, e: ScheduledEvent)
    ensures e in Bar(now) <==> exists i :: 0 <= i < 16 && e.time == StepTime(now, i) && e.trigger in Triggers(i)
  {
    WindowMembership(now, 16, e);
    if exists i :: 0 <= i < 16 && e.time == StepTime(now, i) && e.trigger in Triggers(i) {
      var i :| 0 <= i < 16 && e.time == StepTime(now, i) && e.trigger in Triggers(i);
      assert AtStep(now, i, e);
    }
  }

  /** Later in the sequence is never earlier on the clock. */
  predicate TimeOrdered(es: seq<ScheduledEvent>)
  {
    forall j, k :: 0 <= j < k < |es| ==> es[j].time <= es[k].time
  }

  predicate AllWithin(es: seq<ScheduledEvent>, lo: real, hi: real)
  {
    forall j :: 0 <= j < |es| ==> lo <= es[j].time <= hi
  }

  /** Appending events that all come no earlier than the last of `a` keeps the order. */
  lemma OrderedAppend(a: seq<ScheduledEvent>, b: seq<ScheduledEvent>, lo: real, hiA: real, loB: real, hi: real)
    requires lo <= hiA <= loB <= hi
    requires TimeOrdered(a) && AllWithin(a, lo, hiA)
    requires TimeOrdered(b) && AllWithin(b, loB, hi)
    ensures TimeOrdered(a + b) && AllWithin(a + b, lo, hi)
  {
  }

  /** The events of a window are in time order, from the dispatch's `now` to the time of its last step. */
  lemma {:induction false} WindowOrdered(now: real, n: nat)
    requires n > 0
    ensures TimeOrdered(Window(now, n)) && AllWithin(Window(now, n), now, StepTime(now, n - 1))
  {
    var step, last := StepEvents(now, n - 1), StepTime(now, n - 1);
    StampElements(Triggers((n - 1) % 16), last);
    assert TimeOrdered(step) && AllWithin(step, last, last);
    assert Window(now, n) == Window(now, n - 1) + step;
    if n == 1 {
      assert Window(now, n - 1) == [];
      OrderedAppend([], step, now, now, last, last);
    } else {
      WindowOrdered(now, n - 1);
      StepTimeIncreasing(now, n - 2, n - 1);
      OrderedAppend(Window(now, n - 1), step, now, StepTime(now, n - 2), last, last);
    }
  }

  /** A bar's events lie in [now, now + dispatch period): the lookahead window is one dispatch period. */
  lemma BarInWindow(now: real)
    ensures forall e :: e in Bar(now) ==> now <= e.time < now + DispatchPeriodMs / 1000.0
  {
    WindowOrdered(now, 16);
    forall e | e in Bar(now) ensures now <= e.time < now + DispatchPeriodMs / 1000.0 {
      var j :| 0 <= j < |Bar(now)| && Bar(now)[j] == e;
      assert e.time <= StepTime(now, 15);
    }
  }

  /**
   * The next dispatch fires one period later and continues the grid exactly: the bar it schedules is
   * steps 16 .. 31 of the current dispatch's window, so two consecutive bars neither overlap nor leave
   * a gap.
   */
  lemma ConsecutiveBars(now: real)
    ensures Bar(now) + Bar(now + DispatchPeriodMs / 1000.0) == Window(now, 2 * 16)
  {
    assert now + DispatchPeriodMs / 1000.0 == StepTime(now, 16);
    WindowSplit(now, 1, 16);
  }

  /** Step j of the window opened after whole bars is the corresponding step of the original window. */
  lemma StepEventsShift(now: real, bars: nat, j: nat)
    ensures StepEvents(StepTime(now, 16 * bars), j) == StepEvents(now, 16 * bars + j)
  {
    StepTimeAdds(now, 16 * bars, j);
    WholeBars(bars, j);
  }

  /** Shifting a step by whole bars keeps its position in the bar. */
  lemma WholeBars(bars: nat, j: nat)
    ensures (16 * bars + j) % 16 == j % 16
  {
    var q, r := j / 16, j % 16;
    assert j == 16 * q + r && 0 <= r < 16;
    assert 16 * bars + j == 16 * (bars + q) + r;
  }

  /** Step j of the window opened at step n's time is step n + j of the original window. */
  lemma StepTimeAdds(now: real, n: nat, j: nat)
    ensures StepTime(StepTime(now, n), j) == StepTime(now, n + j)
  {
    var x, y, b := n as real, j as real, BeatSeconds;
    assert ((n + j) as real) == x + y;
    assert x * b + y * b == (x + y) * b;
  }

  /** Concatenation is associative, stated for one appended step. */
  lemma AppendStep(a: seq<ScheduledEvent>, b: seq<ScheduledEvent>, step: seq<ScheduledEvent>)
    ensures a + (b + step) == (a + b) + step
  {
  }

  /**
   * A window of whole bars, followed by the window opened at the time of its next step, is the longer
   * window.
   */
  lemma {:induction false} WindowSplit(now: real, bars: nat, k: nat)
    ensures Window(now, 16 * bars) + Window(StepTime(now, 16 * bars), k) == Window(now, 16 * bars + k)
  {
    var n, later := 16 * bars, StepTime(now, 16 * bars);
    if k == 0 {
      assert Window(now, n) + [] == Window(now, n);
    } else {
      var head, rest, step := Window(now, n), Window(later, k - 1), StepEvents(now, n + k - 1);
      WindowSplit(now, bars, k - 1);
      StepEventsShift(now, bars, k - 1);
      assert Window(later, k) == rest + step;
      assert Window(now, n + k) == (head + rest) + step;
      AppendStep(head, rest, step);
    }
  }
}
