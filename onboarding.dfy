/**
 * The onboarding flow: four steps walked with Next and Previous, the last
 * Next completing the flow with the chosen accessibility preferences.
 */
module Onboarding {

  const StepCount: nat := 4
  const LastStep: nat := StepCount - 1

  datatype Preferences = Preferences(voiceEnabled: bool, highContrast: bool, largeText: bool, hapticFeedback: bool)

  const InitialPreferences := Preferences(true, false, false, true)

  datatype PreferenceKey = VoiceEnabled | HighContrast | LargeText | HapticFeedback

  function Get(p: Preferences, key: PreferenceKey): bool
  {
    match key
    case VoiceEnabled => p.voiceEnabled
    case HighContrast => p.highContrast
    case LargeText => p.largeText
    case HapticFeedback => p.hapticFeedback
  }

  /** `{ ...prev, [key]: value }`: the named preference takes the value, the others keep theirs. */
  function WithPreference(p: Preferences, key: PreferenceKey, value: bool): (r: Preferences)
    ensures Get(r, key) == value
    ensures forall k :: k != key ==> Get(r, k) == Get(p, k)
  {
    match key
    case VoiceEnabled => p.(voiceEnabled := value)
    case HighContrast => p.(highContrast := value)
    case LargeText => p.(largeText := value)
    case HapticFeedback => p.(hapticFeedback := value)
  }

  /** The step after Next: one further, except on the last step, where Next completes instead. */
  function NextStep(step: nat): (r: nat)
    ensures step < LastStep ==> r == step + 1
    ensures step >= LastStep ==> r == step
  {
    if step < LastStep then step + 1 else step
  }

  /** The step after Previous: one back, except on the first step. */
  function PreviousStep(step: nat): (r: nat)
    ensures step > 0 ==> r == step - 1
    ensures step == 0 ==> r == 0
  {
    if step > 0 then step - 1 else step
  }

  datatype Move = Next | Previous

  /** The step reached from `step` by the moves, in order. */
  function StepAfter(step: nat, moves: seq<Move>): nat
  {
    if moves == [] then step
    else
      var before := StepAfter(step, moves[..|moves| - 1]);
      match moves[|moves| - 1]
      case Next => NextStep(before)
      case Previous => PreviousStep(before)
  }

  /** No sequence of moves leaves the range of steps. */
  lemma {:induction false} StepsStayInRange(step: nat, moves: seq<Move>)
    requires step <= LastStep
    ensures StepAfter(step, moves) <= LastStep
  {
    if moves != [] {
      StepsStayInRange(step, moves[..|moves| - 1]);
    }
  }

  function Repeat(move: Move, n: nat): (r: seq<Move>)
    ensures |r| == n && forall i :: 0 <= i < n ==> r[i] == move
  {
    if n == 0 then [] else Repeat(move, n - 1) + [move]
  }

  /** From the first step, three Nexts reach the last step, and further Nexts stay there. */
  lemma {:induction false} NextsReachLastStep(n: nat)
    ensures StepAfter(0, Repeat(Next, n)) == if n <= LastStep then n else LastStep
  {
    if n > 0 {
      NextsReachLastStep(n - 1);
      assert Repeat(Next, n)[..n - 1] == Repeat(Next, n - 1);
    }
  }

  /** The progress shown for a step, in percent: (step + 1) / 4 * 100. */
  function ProgressPercent(step: nat): (p: real)
    requires step <= LastStep
    ensures 0.0 < p <= 100.0
    ensures p == 100.0 <==> step == LastStep
    ensures p == (25 * (step + 1)) as real
  {
    (step + 1) as real / StepCount as real * 100.0
  }

  class OnboardingFlow {
    var currentStep: nat
    var preferences: Preferences
    /** The preferences passed to `onComplete`, once per completing Next. */
    ghost var completions: seq<Preferences>

    ghost predicate Valid()
      reads this
    {
      currentStep <= LastStep
    }

    constructor ()
      ensures Valid()
      ensures currentStep == 0 && preferences == InitialPreferences && completions == []
    {
      currentStep := 0;
      preferences := InitialPreferences;
      completions := [];
    }

    /** `handleNext`: advance, or complete on the last step. */
    method HandleNext()
      requires Valid()
      modifies this`currentStep, this`completions
      ensures Valid()
      ensures currentStep == NextStep(old(currentStep))
      ensures old(currentStep) < LastStep ==> completions == old(completions)
      ensures old(currentStep) == LastStep ==> completions == old(completions) + [preferences]
    {
      if currentStep < LastStep {
        currentStep := currentStep + 1;
      } else {
        completions := completions + [preferences];
      }
    }

    /** `handlePrevious`: go back unless on the first step. */
    method HandlePrevious()
      requires Valid()
      modifies this`currentStep
      ensures Valid()
      ensures currentStep == PreviousStep(old(currentStep))
    {
      if currentStep > 0 {
        currentStep := currentStep - 1;
      }
    }

    /** `handlePreferenceChange`. */
    method HandlePreferenceChange(key: PreferenceKey, value: bool)
      requires Valid()
      modifies this`preferences
      ensures Valid()
      ensures Get(preferences, key) == value
      ensures forall k :: k != key ==> Get(preferences, k) == Get(old(preferences), k)
    {
      preferences := WithPreference(preferences, key, value);
    }
  }
}
