/**
 * The voice command engine (`useVoice`): one speech-capture session that
 * normalises each finished transcript, runs the first registered command
 * whose pattern it contains, and narrates every outcome and error.
 *
 * The recogniser, the speech synthesiser and the command actions are
 * foreign; what the engine asks of them is recorded in the ghost log
 * `effects`, and the utterance the synthesiser holds in `pending`.
 */
module Voice {
  import opened Common
  import opened Text

  /** A registered command: a phrase to listen for, what to run, and how to announce it. */
  datatype CommandSpec<A> = CommandSpec(pattern: string, action: A, description: string)

  // ---------------------------------------------------------------------
  // Transcript matching
  // ---------------------------------------------------------------------

  /** What `onresult` does to a transcript before matching: lower-case, then trim. */
  function Normalise(transcript: string): (r: string)
    ensures NoUpper(r)
    ensures r == [] || (!IsWhitespace(r[0]) && !IsWhitespace(r[|r| - 1]))
  {
    var lower := ToLower(transcript);
    NoUpperTrim(lower);
    Trim(lower)
  }

  /** Normalising twice is the same as normalising once. */
  lemma NormaliseIdempotent(transcript: string)
    ensures Normalise(Normalise(transcript)) == Normalise(transcript)
  {
    var once := Normalise(transcript);
    ToLowerOfLower(once);
    assert TrimStart(once) == once;
    assert TrimEnd(once) == once;
  }

  /**
   * A command matches when its lower-cased pattern is a substring of the
   * normalised transcript, that is, occurs in it at some index.
   */
  predicate Matches<A>(spec: CommandSpec<A>, command: string)
    ensures Matches(spec, command) <==> exists i :: OccursAt(command, ToLower(spec.pattern), i)
  {
    ContainsIffOccurs(command, ToLower(spec.pattern));
    Contains(command, ToLower(spec.pattern))
  }

  /** `commands.find(...)`: the index of the first matching command, in registration order. */
  function FindCommand<A>(commands: seq<CommandSpec<A>>, command: string): (r: Option<nat>)
    ensures r.Some? ==> r.value < |commands| && Matches(commands[r.value], command)
    ensures r.Some? ==> forall j :: 0 <= j < r.value ==> !Matches(commands[j], command)
    ensures r.None? <==> forall j :: 0 <= j < |commands| ==> !Matches(commands[j], command)
  {
    if |commands| == 0 then None
    else if Matches(commands[0], command) then Some(0)
    else match FindCommand(commands[1..], command)
      case None => None
      case Some(k) => Some(k + 1)
  }

  // ---------------------------------------------------------------------
  // Error classification
  // ---------------------------------------------------------------------

  /** How `onerror` reacts to a recogniser error code. */
  datatype ErrorReaction =
    | Suppress              // an abort the engine asked for: silence
    | WarnUnexpectedAbort   // an abort while still listening: warn, keep listening
    | Reprompt              // no speech heard: prompt again, keep listening
    | GiveUp                // anything else: stop listening, report failure

  function Classify(error: string, listening: bool): (r: ErrorReaction)
    ensures r == Suppress <==> error == "aborted" && !listening
    ensures r == WarnUnexpectedAbort <==> error == "aborted" && listening
    ensures r == Reprompt <==> error == "no-speech"
    ensures r == GiveUp <==> error != "aborted" && error != "no-speech"
    ensures r != GiveUp ==> error == "aborted" || error == "no-speech"
  {
    if error == "aborted" then (if listening then WarnUnexpectedAbort else Suppress)
    else if error == "no-speech" then Reprompt
    else GiveUp
  }

  // ---------------------------------------------------------------------
  // Speech output
  // ---------------------------------------------------------------------

  const InitialSpeechRate: real := 0.9
  const DefaultPitch: real := 1.0
  const DefaultVolume: real := 0.8

  const ActivatedMessage := "Voice commands activated. I am listening."
  const DeactivatedMessage := "Voice commands deactivated"
  const NotRecognisedMessage := "Command not recognized. Please try again."
  const UnexpectedAbortMessage := "Voice recognition stopped unexpectedly. Restarting..."
  const RepromptMessage := "Listening for your command"
  const FailureMessage := "Voice recognition error. Please try again."

  function ExecutingMessage(description: string): string { "Executing " + description }

  /** One utterance handed to the synthesiser. */
  datatype Utterance = Utterance(text: string, rate: real, pitch: real, volume: real)

  /** Optional per-call overrides of `speak`. */
  datatype SpeakOptions = SpeakOptions(rate: Option<real>, pitch: Option<real>, volume: Option<real>)

  const NoOptions := SpeakOptions(None, None, None)

  /** JavaScript's `option || fallback` on a number: absent and zero are both falsy. */
  function OrElse(option: Option<real>, fallback: real): (r: real)
    ensures option.None? ==> r == fallback
    ensures option == Some(0.0) ==> r == fallback
    ensures option.Some? && option.value != 0.0 ==> r == option.value
  {
    if option.Some? && option.value != 0.0 then option.value else fallback
  }

  /** The utterance `speak(text, options)` queues when the speech rate is `speechRate`. */
  function ResolveUtterance(text: string, options: SpeakOptions, speechRate: real): (u: Utterance)
    ensures u.text == text
    ensures options.rate.Some? && options.rate.value != 0.0 ==> u.rate == options.rate.value
    ensures options.rate.None? || options.rate.value == 0.0 ==> u.rate == speechRate
    ensures options.pitch.Some? && options.pitch.value != 0.0 ==> u.pitch == options.pitch.value
    ensures options.pitch.None? || options.pitch.value == 0.0 ==> u.pitch == DefaultPitch
    ensures options.volume.Some? && options.volume.value != 0.0 ==> u.volume == options.volume.value
    ensures options.volume.None? || options.volume.value == 0.0 ==> u.volume == DefaultVolume
  {
    Utterance(text, OrElse(options.rate, speechRate), OrElse(options.pitch, DefaultPitch),
              OrElse(options.volume, DefaultVolume))
  }

  // ---------------------------------------------------------------------
  // The engine
  // ---------------------------------------------------------------------

  /** A request the engine makes of its platform or of its caller. */
  datatype Effect<A> =
    | CancelSpeech
    | Utter(utterance: Utterance)
    | StartCapture
    | StopCapture
    | Run(action: A)

  /** How many command actions a log records. */
  function RunCount<A>(log: seq<Effect<A>>): nat
  {
    if log == [] then 0 else RunCount(log[..|log| - 1]) + (if log[|log| - 1].Run? then 1 else 0)
  }

  /** Counting actions distributes over concatenating logs. */
  lemma {:induction false} RunCountAppend<A>(a: seq<Effect<A>>, b: seq<Effect<A>>)
    ensures RunCount(a + b) == RunCount(a) + RunCount(b)
    decreases |b|
  {
    if b != [] {
      assert (a + b)[..|a + b| - 1] == a + b[..|b| - 1];
      RunCountAppend(a, b[..|b| - 1]);
    } else {
      assert a + b == a;
    }
  }

  /** Speech output contains no command action. */
  lemma {:induction false} RunCountOfSpeech<A>(u: Utterance)
    ensures RunCount<A>([CancelSpeech, Utter(u)]) == 0
  {
    var log: seq<Effect<A>> := [CancelSpeech, Utter(u)];
    assert log[..1] == [CancelSpeech];
    assert log[..1][..0] == [];
    assert RunCount(log[..1]) == 0;
  }

  class VoiceEngine<A> {
    /** The registered command table, in registration order. */
    const commands: seq<CommandSpec<A>>
    /** Whether the platform offers speech recognition. */
    const hasRecognizer: bool
    /** Whether the platform offers speech synthesis. */
    const hasSynthesis: bool

    var listening: bool
    var lastCommand: string
    var speechRate: real

    /** The utterances the synthesiser holds (queued or playing). */
    ghost var pending: seq<Utterance>
    /** Everything asked of the platform and the caller, in order. */
    ghost var effects: seq<Effect<A>>

    /** At most one utterance is ever active. */
    ghost predicate Valid()
      reads this
    {
      |pending| <= 1 && (!hasSynthesis ==> pending == [])
    }

    constructor (commands: seq<CommandSpec<A>>, hasRecognizer: bool, hasSynthesis: bool)
      ensures Valid()
      ensures this.commands == commands && this.hasRecognizer == hasRecognizer
      ensures this.hasSynthesis == hasSynthesis
      ensures !listening && lastCommand == "" && speechRate == InitialSpeechRate
      ensures pending == [] && effects == []
    {
      this.commands := commands;
      this.hasRecognizer := hasRecognizer;
      this.hasSynthesis := hasSynthesis;
      listening := false;
      lastCommand := "";
      speechRate := InitialSpeechRate;
      pending := [];
      effects := [];
    }

    /** `isSupported`: a recogniser exists; whether speech synthesis exists plays no part. */
    predicate IsSupported()
      ensures IsSupported() <==> hasRecognizer
    {
      hasRecognizer
    }

    /** The effects `speak(text)` produces at speech rate `rate`. */
    ghost function Said(text: string, rate: real): seq<Effect<A>>
    {
      if hasSynthesis then [CancelSpeech, Utter(ResolveUtterance(text, NoOptions, rate))] else []
    }

    /** `speak`: cancel whatever is being said, then say `text`. */
    method Speak(text: string, options: SpeakOptions := NoOptions)
      requires Valid()
      modifies this`pending, this`effects
      ensures Valid()
      ensures hasSynthesis ==>
        && pending == [ResolveUtterance(text, options, speechRate)]
        && effects == old(effects) + [CancelSpeech, Utter(ResolveUtterance(text, options, speechRate))]
      ensures !hasSynthesis ==> pending == old(pending) && effects == old(effects)
    {
      if hasSynthesis {
        pending := [];
        effects := effects + [CancelSpeech];
        var u := ResolveUtterance(text, options, speechRate);
        pending := [u];
        effects := effects + [Utter(u)];
      }
    }

    /** The synthesiser finished the current utterance. */
    method UtteranceFinished()
      requires Valid()
      modifies this`pending
      ensures Valid() && pending == []
    {
      pending := [];
    }

    /** `setSpeechSettings`. */
    method SetSpeechSettings(rate: real)
      requires Valid()
      modifies this`speechRate
      ensures Valid() && speechRate == rate
    {
      speechRate := rate;
    }

    /** `startListening`: start capture, set the flag, announce it; without a recogniser, nothing. */
    method StartListening()
      requires Valid()
      modifies this`listening, this`pending, this`effects
      ensures Valid()
      ensures IsSupported() ==> listening && effects == old(effects) + [StartCapture] + Said(ActivatedMessage, speechRate)
      ensures !IsSupported() ==> listening == old(listening) && effects == old(effects) && pending == old(pending)
    {
      if hasRecognizer {
        effects := effects + [StartCapture];
        listening := true;
        Speak(ActivatedMessage);
      }
    }

    /** `stopListening`: clear the flag, stop capture, announce it; without a recogniser, nothing. */
    method StopListening()
      requires Valid()
      modifies this`listening, this`pending, this`effects
      ensures Valid()
      ensures IsSupported() ==> !listening && effects == old(effects) + [StopCapture] + Said(DeactivatedMessage, speechRate)
      ensures !IsSupported() ==> listening == old(listening) && effects == old(effects) && pending == old(pending)
    {
      if hasRecognizer {
        listening := false;
        effects := effects + [StopCapture];
        Speak(DeactivatedMessage);
      }
    }

    /**
     * `onresult`: normalise the last result's transcript, remember it, and run
     * the first matching command (announcing it first), or say it was not recognised.
     * `results` holds the top transcript of each result in the event.
     */
    method OnResult(results: seq<string>) returns (ran: Option<A>)
      requires Valid() && |results| > 0
      modifies this`lastCommand, this`pending, this`effects
      ensures Valid()
      ensures lastCommand == Normalise(results[|results| - 1])
      ensures match FindCommand(commands, lastCommand)
        case Some(k) =>
          && ran == Some(commands[k].action)
          && effects == old(effects) + Said(ExecutingMessage(commands[k].description), speechRate) + [Run(commands[k].action)]
        case None =>
          && ran == None
          && effects == old(effects) + Said(NotRecognisedMessage, speechRate)
      ensures RunCount(effects) == RunCount(old(effects)) + (if ran.Some? then 1 else 0)
    {
      lastCommand := Normalise(results[|results| - 1]);
      var found := FindCommand(commands, lastCommand);
      ghost var before := effects;
      match found {
        case Some(k) =>
          Speak(ExecutingMessage(commands[k].description));
          effects := effects + [Run(commands[k].action)];
          ran := Some(commands[k].action);
          RunCountAppend(before, Said(ExecutingMessage(commands[k].description), speechRate));
          RunCountAppend(before + Said(ExecutingMessage(commands[k].description), speechRate), [Run(commands[k].action)]);
          RunCountOfSpeech<A>(ResolveUtterance(ExecutingMessage(commands[k].description), NoOptions, speechRate));
          assert RunCount([Run(commands[k].action)]) == 1 by {
            assert [Run(commands[k].action)][..0] == [];
          }
        case None =>
          Speak(NotRecognisedMessage);
          ran := None;
          RunCountAppend(before, Said(NotRecognisedMessage, speechRate));
          RunCountOfSpeech<A>(ResolveUtterance(NotRecognisedMessage, NoOptions, speechRate));
      }
    }

    /** `onerror`: react to a recogniser error code as `Classify` dictates. */
    method OnError(error: string)
      requires Valid()
      modifies this`listening, this`pending, this`effects
      ensures Valid()
      ensures match Classify(error, old(listening))
        case Suppress => listening == old(listening) && effects == old(effects) && pending == old(pending)
        case WarnUnexpectedAbort => listening && effects == old(effects) + Said(UnexpectedAbortMessage, speechRate)
        case Reprompt => listening == old(listening) && effects == old(effects) + Said(RepromptMessage, speechRate)
        case GiveUp => !listening && effects == old(effects) + Said(FailureMessage, speechRate)
    {
      match Classify(error, listening) {
        case Suppress =>
        case WarnUnexpectedAbort =>
          Speak(UnexpectedAbortMessage);
        case Reprompt =>
          Speak(RepromptMessage);
        case GiveUp =>
          listening := false;
          Speak(FailureMessage);
      }
    }

    /** `onend`: a capture session ended; start a new one exactly when still listening. */
    method OnEnd()
      requires Valid()
      modifies this`effects
      ensures Valid()
      ensures listening ==> effects == old(effects) + [StartCapture]
      ensures !listening ==> effects == old(effects)
    {
      if listening {
        effects := effects + [StartCapture];
      }
    }
  }
}
