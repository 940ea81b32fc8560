/**
 * The drum pattern: which voices a step of the 16-step bar (four beats of four sixteenths) triggers,
 * and with what parameter.
 */
module Pattern {
  import opened Voices

  /** The 808's base frequency at a kick step: the lower 46 Hz on step 8, 55 Hz elsewhere. */
  function BassFreq(beat: nat): (f: real)
    ensures f == (if beat == 8 then 46.0 else 55.0)
  {
    if beat == 0 then 55.0 else if beat == 8 then 46.0 else 55.0
  }

  /**
   * The triggers of step `beat`, in the order the scheduler calls the voices: kick and 808 on every
   * beat, snare on the backbeats, hi-hat on every eighth (open on the off-beat eighths), cowbell on the
   * off-beat eighths.
   */
  function Triggers(beat: nat): (r: seq<Trigger>)
    ensures |r| <= 4
  {
    (if beat % 4 == 0 then [Kick, Bass(BassFreq(beat))] else [])
    + (if beat == 4 || beat == 12 then [Snare] else [])
    + (if beat % 2 == 0 then [HiHat(beat % 4 == 2)] else [])
    + (if beat == 2 || beat == 6 || beat == 10 || beat == 14 then [Cowbell] else [])
  }

  /** The arrangement written out step by step, as a musician would notate the bar. */
  const Arrangement: seq<seq<Trigger>> := [
    /*  0 */ [Kick, Bass(55.0), HiHat(false)],
    /*  1 */ [],
    /*  2 */ [HiHat(true), Cowbell],
    /*  3 */ [],
    /*  4 */ [Kick, Bass(55.0), Snare, HiHat(false)],
    /*  5 */ [],
    /*  6 */ [HiHat(true), Cowbell],
    /*  7 */ [],
    /*  8 */ [Kick, Bass(46.0), HiHat(false)],
    /*  9 */ [],
    /* 10 */ [HiHat(true), Cowbell],
    /* 11 */ [],
    /* 12 */ [Kick, Bass(55.0), Snare, HiHat(false)],
    /* 13 */ [],
    /* 14 */ [HiHat(true), Cowbell],
    /* 15 */ []
  ]

  /** The trigger rules reproduce the notated arrangement at every step of the bar, in call order. */
  lemma TriggersMatchArrangement(beat: nat)
    requires beat < 16
    ensures |Arrangement| == 16 && Triggers(beat) == Arrangement[beat]
  {
    var beatInBeat := beat % 4;
    MatchesOnBeat(beat - beatInBeat, beatInBeat);
  }

  /** One beat (four sixteenths) of the arrangement, starting at step `first`. */
  lemma MatchesOnBeat(first: nat, offset: nat)
    requires first == 0 || first == 4 || first == 8 || first == 12
    requires offset < 4
    ensures |Arrangement| == 16 && Triggers(first + offset) == Arrangement[first + offset]
  {
    if offset == 0 {
      MatchesDownbeat(first);
    } else if offset == 2 {
      MatchesOffbeat(first);
    } else {
      assert Triggers(first + offset) == [] == Arrangement[first + offset];
    }
  }

  /** The first sixteenth of each beat: kick, 808, the backbeat snare and a closed hi-hat. */
  lemma MatchesDownbeat(first: nat)
    requires first == 0 || first == 4 || first == 8 || first == 12
    ensures |Arrangement| == 16 && Triggers(first) == Arrangement[first]
  {
    if first == 0 {
      assert Triggers(0) == [Kick, Bass(55.0), HiHat(false)];
    } else if first == 4 {
      assert Triggers(4) == [Kick, Bass(55.0), Snare, HiHat(false)];
    } else if first == 8 {
      assert Triggers(8) == [Kick, Bass(46.0), HiHat(false)];
    } else {
      assert Triggers(12) == [Kick, Bass(55.0), Snare, HiHat(false)];
    }
  }

  /** The third sixteenth of each beat: an open hi-hat and the cowbell. */
  lemma MatchesOffbeat(first: nat)
    requires first == 0 || first == 4 || first == 8 || first == 12
    ensures |Arrangement| == 16 && Triggers(first + 2) == Arrangement[first + 2]
  {
    assert Triggers(first + 2) == [HiHat(true), Cowbell];
  }

  /**
   * The trigger rules at any step: kick and 808 exactly on the beats (the 808 at 46 Hz on step 8,
   * 55 Hz on the others), snare only on steps 4 and 12, a hi-hat on every even step that is open exactly
   * on the off-beat eighths, cowbell only on steps 2, 6, 10 and 14, and nothing on an odd step.
   */
  lemma PatternRules(beat: nat, f: real, open: bool)
    ensures Kick in Triggers(beat) <==> beat % 4 == 0
    ensures Bass(f) in Triggers(beat) <==> beat % 4 == 0 && f == (if beat == 8 then 46.0 else 55.0)
    ensures Snare in Triggers(beat) <==> beat == 4 || beat == 12
    ensures HiHat(open) in Triggers(beat) <==> beat % 2 == 0 && open == (beat % 4 == 2)
    ensures Cowbell in Triggers(beat) <==> beat == 2 || beat == 6 || beat == 10 || beat == 14
    ensures beat % 2 == 1 ==> Triggers(beat) == []
  {
    KickRule(beat, f);
    SnareRule(beat);
    HiHatRule(beat, open);
    CowbellRule(beat);
  }

  lemma KickRule(beat: nat, f: real)
    ensures Kick in Triggers(beat) <==> beat % 4 == 0
    ensures Bass(f) in Triggers(beat) <==> beat % 4 == 0 && f == (if beat == 8 then 46.0 else 55.0)
  {
  }

  lemma SnareRule(beat: nat)
    ensures Snare in Triggers(beat) <==> beat == 4 || beat == 12
  {
  }

  lemma HiHatRule(beat: nat, open: bool)
    ensures HiHat(open) in Triggers(beat) <==> beat % 2 == 0 && open == (beat % 4 == 2)
    ensures beat % 2 == 1 ==> Triggers(beat) == []
  {
    StepClass(beat);
  }

  lemma CowbellRule(beat: nat)
    ensures Cowbell in Triggers(beat) <==> beat == 2 || beat == 6 || beat == 10 || beat == 14
  {
  }

  /** The steps of the bar at which a trigger fires. */
  function StepsWith(t: Trigger): set<nat>
  {
    set i: nat | i < 16 && t in Triggers(i)
  }

  /** Where a step of the bar falls within its beat. */
  lemma StepClass(i: nat)
    ensures i < 16 && i % 4 == 0 <==> i in {0, 4, 8, 12}
    ensures i < 16 && i % 4 == 2 <==> i in {2, 6, 10, 14}
    ensures i % 2 == 0 <==> i % 4 == 0 || i % 4 == 2
  {
    var q, m := i / 4, i % 4;
    assert i == 4 * q + m && m < 4;
    assert i % 2 == m % 2;
  }

  /** Kick and 808 fire on the four beats of the bar; the 808 at 46 Hz on step 8 and at 55 Hz on the others. */
  lemma KickSteps()
    ensures StepsWith(Kick) == {0, 4, 8, 12}
    ensures StepsWith(Bass(55.0)) == {0, 4, 12} && StepsWith(Bass(46.0)) == {8}
  {
    forall i: nat ensures i in StepsWith(Kick) <==> i in {0, 4, 8, 12} {
      PatternRules(i, 0.0, false);
      StepClass(i);
    }
    forall i: nat ensures i in StepsWith(Bass(55.0)) <==> i in {0, 4, 12} {
      PatternRules(i, 55.0, false);
      StepClass(i);
    }
    forall i: nat ensures i in StepsWith(Bass(46.0)) <==> i == 8 {
      PatternRules(i, 46.0, false);
    }
  }

  /** Two snares per bar, on the backbeats. */
  lemma SnareSteps()
    ensures StepsWith(Snare) == {4, 12} && |StepsWith(Snare)| == 2
  {
    forall i: nat ensures i in StepsWith(Snare) <==> i in {4, 12} {
      PatternRules(i, 0.0, false);
    }
  }

  /** Closed hi-hats on the beats, open ones on the off-beat eighths: eight per bar. */
  lemma HiHatSteps()
    ensures StepsWith(HiHat(false)) == {0, 4, 8, 12} && StepsWith(HiHat(true)) == {2, 6, 10, 14}
  {
    forall i: nat ensures i in StepsWith(HiHat(false)) <==> i in {0, 4, 8, 12} {
      PatternRules(i, 0.0, false);
      StepClass(i);
    }
    forall i: nat ensures i in StepsWith(HiHat(true)) <==> i in {2, 6, 10, 14} {
      PatternRules(i, 0.0, true);
      StepClass(i);
    }
  }

  /** Four cowbells per bar, on the off-beat eighths. */
  lemma CowbellSteps()
    ensures StepsWith(Cowbell) == {2, 6, 10, 14} && |StepsWith(Cowbell)| == 4
  {
    forall i: nat ensures i in StepsWith(Cowbell) <==> i in {2, 6, 10, 14} {
      PatternRules(i, 0.0, false);
      StepClass(i);
    }
  }

  /** No step triggers the same voice twice. */
  lemma TriggersDistinct(beat: nat)
    ensures forall i, j :: 0 <= i < j < |Triggers(beat)| ==> Triggers(beat)[i] != Triggers(beat)[j]
  {
  }
}
