/**
 * The spatial audio cue engine (`useSpatialAudio`): a short sine tone,
 * panned towards a direction, with a gain envelope that decays from 0.3
 * to 0.01 exactly when the tone is scheduled to stop.
 *
 * The Web Audio node graph is foreign; a request is modelled by the
 * settings it gives the nodes (`Tone`), with times in seconds as `real`.
 */
module SpatialAudio {
  import opened Common

  datatype Direction = Left | Right | Center

  /** The turn instructions that have a preset cue. */
  datatype NavigationCue = TurnLeft | TurnRight | Straight

  /** An audio context, reduced to the clock the schedule is built on. */
  datatype AudioContext = AudioContext(currentTime: real)

  const DefaultFrequency: real := 440.0
  const DefaultDurationMs: real := 500.0
  const StartGain: real := 0.3
  const EndGain: real := 0.01

  /** The stereo pan for a direction: partial, never a full +-1. */
  function PanFor(direction: Direction): (pan: real)
    ensures -0.8 <= pan <= 0.8
    ensures pan == -0.8 <==> direction == Left
    ensures pan == 0.8 <==> direction == Right
    ensures pan == 0.0 <==> direction == Center
  {
    match direction
    case Left => -0.8
    case Right => 0.8
    case Center => 0.0
  }

  /** The settings one request gives its oscillator, gain and panner nodes. */
  datatype Tone = Tone(
    pan: real,
    frequency: real,
    gainStart: real,       // gain set at the start time
    gainTarget: real,      // gain the envelope ramps to
    gainTargetTime: real,  // when the ramp reaches its target
    startTime: real,       // oscillator start
    stopTime: real)        // oscillator stop

  /**
   * `playDirectionalSound(direction, frequency = 440, duration = 500)`:
   * no context, no sound; otherwise a tone panned by direction whose
   * envelope ends exactly when the oscillator stops, `duration` ms later.
   */
  function PlayDirectionalSound(context: Option<AudioContext>, direction: Direction,
                                frequency: real := DefaultFrequency,
                                durationMs: real := DefaultDurationMs): (tone: Option<Tone>)
    ensures tone.None? <==> context.None?
    ensures tone.Some? ==>
      && tone.value.pan == PanFor(direction)
      && tone.value.frequency == frequency
      && tone.value.gainStart == StartGain && tone.value.gainTarget == EndGain
      && tone.value.startTime == context.value.currentTime
      && tone.value.gainTargetTime == tone.value.stopTime
      && tone.value.stopTime - tone.value.startTime == durationMs / 1000.0
  {
    match context
    case None => None
    case Some(ctx) =>
      var t := ctx.currentTime;
      Some(Tone(PanFor(direction), frequency, StartGain, EndGain, t + durationMs / 1000.0,
                t, t + durationMs / 1000.0))
  }

  /** The direction, frequency (Hz) and duration (ms) preset for each turn cue. */
  function CuePreset(cue: NavigationCue): (preset: (Direction, real, real))
    ensures cue == TurnLeft <==> preset.0 == Left
    ensures cue == TurnRight <==> preset.0 == Right
    ensures cue == Straight <==> preset.0 == Center
    ensures cue == TurnLeft ==> preset.1 == 300.0 && preset.2 == 300.0
    ensures cue == TurnRight ==> preset.1 == 500.0 && preset.2 == 300.0
    ensures cue == Straight ==> preset.1 == 400.0 && preset.2 == 200.0
  {
    match cue
    case TurnLeft => (Left, 300.0, 300.0)
    case TurnRight => (Right, 500.0, 300.0)
    case Straight => (Center, 400.0, 200.0)
  }

  /** `playNavigationCue`: the preset tone for a turn instruction. */
  function PlayNavigationCue(context: Option<AudioContext>, cue: NavigationCue): (tone: Option<Tone>)
    ensures tone.None? <==> context.None?
    ensures tone.Some? && cue == TurnLeft ==>
      tone.value.pan == -0.8 && tone.value.frequency == 300.0 && tone.value.stopTime - tone.value.startTime == 0.3
    ensures tone.Some? && cue == TurnRight ==>
      tone.value.pan == 0.8 && tone.value.frequency == 500.0 && tone.value.stopTime - tone.value.startTime == 0.3
    ensures tone.Some? && cue == Straight ==>
      tone.value.pan == 0.0 && tone.value.frequency == 400.0 && tone.value.stopTime - tone.value.startTime == 0.2
  {
    var (direction, frequency, durationMs) := CuePreset(cue);
    PlayDirectionalSound(context, direction, frequency, durationMs)
  }

  /** A request with no explicit frequency or duration plays 440 Hz for half a second. */
  lemma DefaultToneIsHalfSecondAt440(context: AudioContext, direction: Direction)
    ensures var tone := PlayDirectionalSound(Some(context), direction);
      tone.Some? && tone.value.frequency == 440.0 && tone.value.stopTime == context.currentTime + 0.5
  {
  }
}
