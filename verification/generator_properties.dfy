/** Properties of the tone generator that relate several calls or hold for whole runs. */
module GeneratorProperties {
  import opened RealMath
  import opened Wrappers
  import opened AudioGenerator
  import HearingTestData

  /** Stopping twice is the same as stopping once. */
  lemma StopToneIdempotent(g: Generator)
    ensures StopTone(StopTone(g)) == StopTone(g)
  {
  }

  /** Every call keeps the state invariant, so every state a run reaches from a valid start
      has at most one chain, built by this generator, playing what was last requested. */
  lemma {:induction false} RunPreservesValid(g: Generator, calls: seq<Call>)
    requires Valid(g)
    ensures Valid(Run(g, calls))
    decreases |calls|
  {
    if |calls| > 0 {
      var next := Step(g, calls[0]);
      assert Valid(next);
      RunPreservesValid(next, calls[1..]);
    }
  }

  /** A closed generator stays silent, whatever is called on it afterwards. */
  lemma {:induction false} ClosedStaysSilent(g: Generator, calls: seq<Call>)
    requires g.context == Unavailable && g.graph.None? && !g.isLooping
    ensures Run(g, calls).context == Unavailable
    ensures Run(g, calls).graph.None? && !Run(g, calls).isLooping
    decreases |calls|
  {
    if |calls| > 0 {
      ClosedStaysSilent(Step(g, calls[0]), calls[1..]);
    }
  }

  /** `cleanup` is terminal: after it no call starts a tone again. */
  lemma CleanupIsTerminal(g: Generator, calls: seq<Call>)
    ensures Run(Cleanup(g), calls).context == Unavailable
    ensures Run(Cleanup(g), calls).graph.None? && !Run(Cleanup(g), calls).isLooping
  {
    ClosedStaysSilent(Cleanup(g), calls);
  }

  /** Without a context, starting or playing a tone changes nothing. */
  lemma NoContextNoSound(g: Generator, frequency: real, volume: real, durationMs: real, ear: Ear)
    requires g.context == Unavailable
    ensures StartLoopingTone(g, frequency, volume, ear) == g
    ensures PlayTone(g, frequency, volume, durationMs, ear) == Playback(g, None)
  {
  }

  /** `getVolume` returns what `setVolume` stored: the input clamped to [0, 1]. */
  lemma VolumeRoundTrip(g: Generator, volume: real)
    ensures GetVolume(SetVolume(g, volume)) == Clamp01(volume)
    ensures 0.0 <= GetVolume(SetVolume(g, volume)) <= 1.0
    ensures 0.0 <= volume <= 1.0 ==> GetVolume(SetVolume(g, volume)) == volume
  {
  }

  /** `startLoopingTone` records the raw volume, so `getVolume` can return a value outside
      [0, 1]: only `setVolume` clamps. */
  lemma StartRecordsRawVolume(g: Generator, frequency: real, volume: real, ear: Ear)
    requires g.context == Available
    ensures GetVolume(StartLoopingTone(g, frequency, volume, ear)) == volume
    ensures GetVolume(StartLoopingTone(g, frequency, 2.0, ear)) == 2.0
  {
  }

  /** Only `startLoopingTone` sets the looping flag; `playTone` and `stopTone` leave it
      cleared. */
  lemma LoopingFlag(g: Generator, frequency: real, volume: real, durationMs: real, ear: Ear)
    requires g.context == Available
    ensures GetIsLooping(StartLoopingTone(g, frequency, volume, ear))
    ensures !GetIsLooping(PlayTone(g, frequency, volume, durationMs, ear).generator)
    ensures !GetIsLooping(StopTone(g))
  {
  }

  /** The three places that compensate a gain agree: `startLoopingTone` and `playTone` start
      at the same gain for the same frequency and volume, and `setVolume` on a tone of that
      frequency ramps to that gain, floored at `RampFloor`. */
  lemma SameAdjustedGain(
    g1: Generator, g2: Generator, h: Generator,
    frequency: real, volume: real, durationMs: real, ear1: Ear, ear2: Ear)
    requires g1.context == Available && g2.context == Available
    requires Valid(h) && h.graph.Some? && h.frequency == frequency
    requires 0.0 <= volume <= 1.0
    ensures StartLoopingTone(g1, frequency, volume, ear1).graph.value.gain ==
            PlayTone(g2, frequency, volume, durationMs, ear2).generator.graph.value.gain
    ensures SetVolume(h, volume).graph.value.gain ==
            Max(RampFloor, StartLoopingTone(g1, frequency, volume, ear1).graph.value.gain)
  {
  }

  /** The compensated gain grows with the volume. */
  lemma CompensateMonotoneInVolume(frequency: real, v1: real, v2: real)
    requires v1 <= v2
    ensures Compensate(frequency, v1) <= Compensate(frequency, v2)
  {
  }

  /** For a volume in [0, 1], a lower frequency never gets less boost. Above 1 this fails:
      the unboosted band passes the volume through uncapped. */
  lemma CompensateAntitoneInFrequency(f1: real, f2: real, volume: real)
    requires f1 <= f2 && 0.0 <= volume <= 1.0
    ensures Compensate(f2, volume) <= Compensate(f1, volume)
  {
  }

  /** Above 250 Hz the volume is not capped: a volume above 1 reaches the gain node as is. */
  lemma UnboostedBandIsUncapped()
    ensures Compensate(1000.0, 1.5) == 1.5
    ensures Compensate(100.0, 1.5) == 1.0
  {
  }

  /** Outside [0, 1] the three gains part: above 250 Hz a start at volume 1.5 sets gain 1.5,
      while `setVolume(1.5)` clamps first and ramps to 1. */
  lemma OutOfRangeVolumeGainsDiverge(g: Generator, h: Generator, ear: Ear)
    requires g.context == Available
    requires Valid(h) && h.graph.Some? && h.frequency == 1000.0
    ensures StartLoopingTone(g, 1000.0, 1.5, ear).graph.value.gain == 1.5
    ensures SetVolume(h, 1.5).graph.value.gain == 1.0
  {
  }

  /** Over the standard test frequencies, 50 Hz is tripled, 250 Hz doubled and the rest
      played as is; no test frequency falls in the fourfold band. */
  lemma TestFrequencyCompensation(volume: real)
    ensures forall i :: 0 <= i < |HearingTestData.TestFrequencies()| ==>
      Compensate(HearingTestData.TestFrequencies()[i], volume) ==
        if i == 0 then Min(1.0, volume * 3.0)
        else if i == 1 then Min(1.0, volume * 2.0)
        else volume
  {
  }

  /** As written, the timer of an earlier `playTone` stops whatever is playing when it fires:
      a looping tone started in the meantime is cut off and its looping flag cleared. */
  lemma LateTimerStopsNewerTone(
    g: Generator, f1: real, v1: real, durationMs: real, e1: Ear, f2: real, v2: real, e2: Ear)
    requires g.context == Available
    ensures
      var p := PlayTone(g, f1, v1, durationMs, e1);
      var looping := StartLoopingTone(p.generator, f2, v2, e2);
      && p.timer.Some?
      && looping.isLooping && looping.graph.Some?
      && PlayTimerFires(looping, p.timer.value).graph.None?
      && !PlayTimerFires(looping, p.timer.value).isLooping
  {
  }

  /** With the completion step tied to its own chain, the late timer leaves the newer looping
      tone untouched, while a timer that fires on its own tone still stops it, even after
      volume changes. */
  lemma OwnTimerSparesNewerTone(
    g: Generator, f1: real, v1: real, durationMs: real, e1: Ear, f2: real, v2: real, e2: Ear, v3: real)
    requires Valid(g) && g.context == Available
    ensures
      var p := PlayTone(g, f1, v1, durationMs, e1);
      var looping := StartLoopingTone(p.generator, f2, v2, e2);
      && p.timer.Some?
      && PlayTimerFiresOwnChain(looping, p.timer.value) == looping
      && PlayTimerFiresOwnChain(SetVolume(p.generator, v3), p.timer.value).graph.None?
  {
    var p := PlayTone(g, f1, v1, durationMs, e1);
    assert Valid(p.generator);
  }
}
