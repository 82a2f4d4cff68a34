/** The tone generator of the hearing self-test (lib/audio-generator.ts, class
    `AudiometryToneGenerator`) as an explicit state machine over immutable states.

    The Web Audio objects are abstract: the audio context is a capability that is either
    available or gone, and the oscillator, gain and stereo-panner nodes that the class keeps in
    three nullable fields form one `Graph`, present or absent as a whole. Each chain of nodes
    carries the serial number under which it was built, standing for the identity of its node
    objects. */
module AudioGenerator {
  import opened RealMath
  import opened Wrappers

  /** The ear a tone is directed to; `Both` is centred. */
  datatype Ear = Left | Right | Both

  /** Whether the generator holds an open audio context. */
  datatype Capability = Available | Unavailable

  /** One live node chain: a sine oscillator at `frequency`, a gain node at `gain` and a
      stereo panner at `pan`, connected to the output. */
  datatype Graph = Graph(chain: nat, frequency: real, gain: real, pan: real)

  /** The fields of `AudiometryToneGenerator`, plus the count of chains built so far. */
  datatype Generator = Generator(
    context: Capability,
    graph: Option<Graph>,
    frequency: real,
    volume: real,
    ear: Ear,
    isLooping: bool,
    chainsBuilt: nat)

  /** The pending auto-stop of a `playTone` call: it fires `durationMs` after the call. */
  datatype Timer = Timer(chain: nat, durationMs: real)

  /** What `playTone` leaves behind: the new state and, when a tone started, its timer. */
  datatype Playback = Playback(generator: Generator, timer: Option<Timer>)

  const DefaultFrequency := 1000.0
  const DefaultVolume := 0.5

  /** The smallest ramp target `setVolume` uses, since an exponential ramp cannot reach 0. */
  const RampFloor := 0.001

  /** The state invariant: a chain exists only with an open context, was built by this
      generator, plays the recorded frequency towards the recorded ear at a gain derived
      from the recorded volume, and a looping flag implies a chain. */
  predicate Valid(g: Generator) {
    && (g.isLooping ==> g.graph.Some?)
    && (g.graph.Some? ==>
          var n := g.graph.value;
          && g.context == Available
          && n.chain < g.chainsBuilt
          && n.frequency == g.frequency
          && n.pan == PanValue(g.ear)
          && (n.gain == Compensate(g.frequency, g.volume) || n.gain == RampTarget(g.frequency, g.volume)))
  }

  /** The constructor: the generator holds a context exactly when one could be created. */
  function New(audioAvailable: bool): (g: Generator)
    ensures Valid(g)
    ensures g.graph.None? && !g.isLooping
    ensures g.context == Available <==> audioAvailable
  {
    Generator(if audioAvailable then Available else Unavailable, None, DefaultFrequency, DefaultVolume, Both, false, 0)
  }

  /** Low-frequency loudness compensation: the gain is multiplied by 4 below 50 Hz, by 3 from
      50 Hz up to 100 Hz, by 2 from 100 Hz to 250 Hz inclusive, and a boosted value is capped
      at 1; above 250 Hz the volume passes through unchanged. */
  function Compensate(frequency: real, volume: real): (adjusted: real)
    ensures frequency < 50.0 ==> adjusted == Min(1.0, volume * 4.0)
    ensures 50.0 <= frequency < 100.0 ==> adjusted == Min(1.0, volume * 3.0)
    ensures 100.0 <= frequency <= 250.0 ==> adjusted == Min(1.0, volume * 2.0)
    ensures frequency > 250.0 ==> adjusted == volume
    ensures 0.0 <= volume <= 1.0 ==> volume <= adjusted <= 1.0
  {
    if frequency < 50.0 then Min(1.0, volume * 4.0)
    else if frequency < 100.0 then Min(1.0, volume * 3.0)
    else if frequency <= 250.0 then Min(1.0, volume * 2.0)
    else volume
  }

  /** The target of `setVolume`'s exponential ramp: the compensated volume, but never below
      `RampFloor`. */
  function RampTarget(frequency: real, volume: real): (target: real)
    ensures target >= RampFloor
    ensures Compensate(frequency, volume) >= RampFloor ==> target == Compensate(frequency, volume)
    ensures 0.0 <= volume <= 1.0 ==> target <= 1.0
  {
    Max(RampFloor, Compensate(frequency, volume))
  }

  /** Hard panning: left is -1, right is +1 and both ears are centred at 0. */
  function PanValue(ear: Ear): (pan: real)
    ensures pan == -1.0 <==> ear == Left
    ensures pan == 1.0 <==> ear == Right
    ensures pan == 0.0 <==> ear == Both
  {
    match ear
    case Left => -1.0
    case Right => 1.0
    case Both => 0.0
  }

  /** `stopTone`: drops the node chain, if any, and clears the looping flag; nothing else
      changes. A `stop()` that throws is swallowed and the handles are cleared all the same,
      so the model has a single outcome. */
  function StopTone(g: Generator): (r: Generator)
    ensures r.graph.None? && !r.isLooping
    ensures r.context == g.context && r.frequency == g.frequency && r.volume == g.volume
    ensures r.ear == g.ear && r.chainsBuilt == g.chainsBuilt
    ensures Valid(g) ==> Valid(r)
  {
    g.(graph := None, isLooping := false)
  }

  /** The chain construction shared by `startLoopingTone` and `playTone`: a fresh chain at the
      compensated gain and the ear's pan, with the settings recorded. */
  function BuildChain(g: Generator, frequency: real, volume: real, ear: Ear): Generator {
    g.(graph := Some(Graph(g.chainsBuilt, frequency, Compensate(frequency, volume), PanValue(ear))),
       chainsBuilt := g.chainsBuilt + 1,
       frequency := frequency, volume := volume, ear := ear)
  }

  /** `startLoopingTone`: without a context nothing happens; otherwise the previous chain is
      torn down and exactly one fresh chain plays until stopped. The raw, unclamped volume
      is recorded. */
  function StartLoopingTone(g: Generator, frequency: real, volume: real, ear: Ear): (r: Generator)
    ensures g.context == Unavailable ==> r == g
    ensures g.context == Available ==>
      && r.graph.Some?
      && r.graph.value.frequency == frequency
      && r.graph.value.gain == Compensate(frequency, volume)
      && r.graph.value.pan == PanValue(ear)
      && r.isLooping && r.frequency == frequency && r.volume == volume && r.ear == ear
      && r.context == Available
    ensures Valid(g) && g.context == Available && g.graph.Some? ==> r.graph.value.chain != g.graph.value.chain
    ensures Valid(g) ==> Valid(r)
  {
    if g.context == Unavailable then g
    else BuildChain(StopTone(g), frequency, volume, ear).(isLooping := true)
  }

  /** `playTone` up to its `await`: the same chain as `startLoopingTone`, but the looping flag
      stays cleared and a timer is left pending. Without a context nothing happens and there
      is nothing to wait for. */
  function PlayTone(g: Generator, frequency: real, volume: real, durationMs: real, ear: Ear): (p: Playback)
    ensures g.context == Unavailable ==> p.generator == g && p.timer.None?
    ensures g.context == Available ==>
      && p.generator.graph.Some?
      && p.generator.graph.value.frequency == frequency
      && p.generator.graph.value.gain == Compensate(frequency, volume)
      && p.generator.graph.value.pan == PanValue(ear)
      && !p.generator.isLooping
      && p.generator.frequency == frequency && p.generator.volume == volume && p.generator.ear == ear
      && p.timer == Some(Timer(p.generator.graph.value.chain, durationMs))
    ensures Valid(g) && g.context == Available && g.graph.Some? ==>
      p.generator.graph.value.chain != g.graph.value.chain
    ensures Valid(g) ==> Valid(p.generator)
  {
    if g.context == Unavailable then Playback(g, None)
    else
      var r := BuildChain(StopTone(g), frequency, volume, ear);
      Playback(r, Some(Timer(g.chainsBuilt, durationMs)))
  }

  /** The completion step of `playTone` as written: when the timer fires it calls `stopTone`
      unconditionally, whatever chain is playing by then. */
  function PlayTimerFires(g: Generator, timer: Timer): (r: Generator)
    ensures r.graph.None? && !r.isLooping
    ensures Valid(g) ==> Valid(r)
  {
    StopTone(g)
  }

  /** The completion step as evidently intended: the timer stops only the chain its own
      `playTone` built, and a late timer finds nothing of its own and does nothing. */
  function PlayTimerFiresOwnChain(g: Generator, timer: Timer): (r: Generator)
    ensures g.graph.Some? && g.graph.value.chain == timer.chain ==> r.graph.None? && !r.isLooping
    ensures !(g.graph.Some? && g.graph.value.chain == timer.chain) ==> r == g
    ensures Valid(g) ==> Valid(r)
  {
    if g.graph.Some? && g.graph.value.chain == timer.chain then StopTone(g) else g
  }

  /** `setVolume`: records the volume clamped to [0, 1] and, when a chain is playing, ramps
      its gain towards the compensated volume floored at `RampFloor`. */
  function SetVolume(g: Generator, volume: real): (r: Generator)
    ensures r.volume == Clamp01(volume)
    ensures 0.0 <= r.volume <= 1.0
    ensures r.graph.Some? <==> g.graph.Some?
    ensures g.graph.Some? && g.context == Available ==>
      && r.graph.value == g.graph.value.(gain := r.graph.value.gain)
      && RampFloor <= r.graph.value.gain <= 1.0
      && r.graph.value.gain == RampTarget(g.frequency, r.volume)
    ensures r.context == g.context && r.frequency == g.frequency && r.ear == g.ear
    ensures r.isLooping == g.isLooping && r.chainsBuilt == g.chainsBuilt
    ensures Valid(g) ==> Valid(r)
  {
    var v := Clamp01(volume);
    if g.graph.Some? && g.context == Available then
      g.(volume := v, graph := Some(g.graph.value.(gain := RampTarget(g.frequency, v))))
    else g.(volume := v)
  }

  /** `getVolume`. */
  function GetVolume(g: Generator): (v: real)
    ensures v == g.volume
  {
    g.volume
  }

  /** `getIsLooping`. */
  function GetIsLooping(g: Generator): (looping: bool)
    ensures looping == g.isLooping
  {
    g.isLooping
  }

  /** `cleanup`: stops any tone and closes the context for good. */
  function Cleanup(g: Generator): (r: Generator)
    ensures r.context == Unavailable && r.graph.None? && !r.isLooping
    ensures r.frequency == g.frequency && r.volume == g.volume && r.ear == g.ear
    ensures Valid(r)
  {
    StopTone(g).(context := Unavailable)
  }

  /** A call a client makes on the generator, or the firing of a `playTone` timer. */
  datatype Call =
    | StartLooping(frequency: real, volume: real, ear: Ear)
    | Play(frequency: real, volume: real, durationMs: real, ear: Ear)
    | TimerFired(timer: Timer)
    | Stop
    | ChangeVolume(volume: real)
    | CleanUp

  /** The state after one call, with timers completing as the source does. */
  function Step(g: Generator, call: Call): Generator {
    match call
    case StartLooping(f, v, e) => StartLoopingTone(g, f, v, e)
    case Play(f, v, d, e) => PlayTone(g, f, v, d, e).generator
    case TimerFired(t) => PlayTimerFires(g, t)
    case Stop => StopTone(g)
    case ChangeVolume(v) => SetVolume(g, v)
    case CleanUp => Cleanup(g)
  }

  /** The state after a sequence of calls, first call first. */
  function Run(g: Generator, calls: seq<Call>): Generator
    decreases |calls|
  {
    if |calls| == 0 then g else Run(Step(g, calls[0]), calls[1..])
  }
}
