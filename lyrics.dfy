/**
 * The lyric cue track: a fixed cyclic list of captions, each shown for its own duration, advanced by
 * a self-rescheduling timer that is independent of the beat clock.
 */
module LyricTrack {

  /** A caption, how long it stays up (in milliseconds), and whether it is drawn in the "la la la" style. */
  datatype Lyric = Lyric(text: string, duration: nat, isLalala: bool)

  const Lalala: string := "\U{1F3B5} La la la \U{1F3B5}"

  const Lyrics: seq<Lyric> := [
    Lyric("Vee \U{E9} um rob\U{F4} safado", 3000, false),
    Lyric("Ele pega", 1500, false),
    Lyric("Ele chuta", 1500, false),
    Lyric("E ele faz tudo de maldadeeee", 4000, false),
    Lyric(Lalala, 2000, true),
    Lyric(Lalala, 2000, true),
    Lyric(Lalala, 2000, true),
    Lyric(Lalala, 2000, true)
  ]

  /** Delay from start to the first cue, in milliseconds. */
  const FirstCueDelayMs: nat := 100

  /** The cue after cue k: the next one, and the first again after the last. */
  function NextCue(k: nat): (r: nat)
    ensures r < |Lyrics|
    ensures k + 1 < |Lyrics| ==> r == k + 1
    ensures k + 1 == |Lyrics| ==> r == 0
  {
    (k + 1) % |Lyrics|
  }

  /** The cue the chain is at after k advances from the first one. */
  function CueAfter(k: nat): (r: nat)
    ensures r < |Lyrics|
  {
    if k == 0 then 0 else NextCue(CueAfter(k - 1))
  }

  /** Total display time of the first k cues shown, in milliseconds. */
  function ShownTime(k: nat): nat
  {
    if k == 0 then 0 else ShownTime(k - 1) + Lyrics[CueAfter(k - 1)].duration
  }

  /** After k advances the chain is at cue k mod the number of cues: it visits them all, cyclically. */
  lemma {:induction false} CueAfterCycles(k: nat)
    ensures CueAfter(k) == k % |Lyrics|
  {
    if k > 0 {
      CueAfterCycles(k - 1);
    }
  }

  /** One pass over the whole track lasts 18 seconds. */
  lemma CycleLength()
    ensures ShownTime(|Lyrics|) == 18000
  {
    assert CueAfter(1) == 1 && CueAfter(2) == 2 && CueAfter(3) == 3 && CueAfter(4) == 4;
    assert CueAfter(5) == 5 && CueAfter(6) == 6 && CueAfter(7) == 7;
  }

  /**
   * Every further pass takes the same 18 seconds: showing |Lyrics| more cues adds exactly one cycle.
   * Since 60 s is not a multiple of 18 s, the captions drift against the 60-second loop.
   */
  lemma {:induction false} ShownTimePeriodic(k: nat)
    ensures ShownTime(k + |Lyrics|) == ShownTime(k) + 18000
    ensures 60000 % ShownTime(|Lyrics|) != 0
  {
    CycleLength();
    if k > 0 {
      ShownTimePeriodic(k - 1);
      CueAfterCycles(k - 1);
      CueAfterCycles(k - 1 + |Lyrics|);
      assert (k - 1 + |Lyrics|) % |Lyrics| == (k - 1) % |Lyrics|;
    }
  }
}
