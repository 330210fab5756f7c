# Saarathi accessibility core, modelled in Dafny

Saarathi (AccessAura) is a navigation assistant for visually impaired users.
Its interface is driven by voice, gestures and sound. This project models the
behavioural core behind that interface and proves what it promises:

- **Voice command engine** (`useVoice`, module `Voice`). It normalises each
  transcript by lower-casing and trimming it. It runs the first registered
  command whose phrase the transcript contains. It reacts to each recogniser
  error class, restarts capture at the end of a session while listening, and
  speaks with a rate, pitch and volume that fall back to defaults.
- **Gesture SOS detector** (`useGestures`, module `Gestures`). A burst of three
  or more taps, each under 500 ms after the one before, raises SOS when the
  500 ms debounce timer fires. A shake above 15 raises SOS, and a 2000 ms
  cooldown follows.
- **Spatial audio cues** (`useSpatialAudio`, module `SpatialAudio`). A request
  becomes a panned tone. Its gain envelope ends exactly when the tone stops.
  Each turn instruction has a preset cue.
- **Emergency contacts page** (module `Emergency`). Contacts are added with a
  default relationship, edited by id and deleted by id. The page also has a
  form state and its own voice commands.
- **Onboarding flow** (module `Onboarding`). Four steps are walked with Next and
  Previous, and the preferences are collected along the way.
- **Route replay player** (module `RouteReplay`). Playback goes one point per
  tick, with pause, resume and restart. The file also has the `formatDuration`
  helper.
- **Heatmap statistics** (module `Heatmap`). The data points are counted by
  type, and each type button speaks its own sentence.

Shared pieces:
- `base.dfy` holds `Option`.
- `text.dfy` models the JavaScript string operations the core relies on:
  `toLowerCase`, `trim`, `includes` and decimal rendering of numbers.

Effects on the platform are recorded in ghost logs. These are speech,
dialling, vibration, capture start and stop, and command actions. Timers
become explicit methods that the environment calls: `FireTapTimer`,
`FireCooldownTimer` and `Tick`.

`onerror`'s catch-all branch (src/hooks/useVoice.ts:48-52) only clears
`isListening` and speaks the failure notice. It does not call
`recognition.stop()`, so `Voice.VoiceEngine.OnError` records no `StopCapture`.

## Model

| member | source | states |
|---|---|---|
| Text.LowerChar | src/hooks/useVoice.ts:20 | each capital A to Z becomes the small letter at the same place in the alphabet; every other character is unchanged; no capital is left |
| Text.ToLower | src/hooks/useVoice.ts:20 | the result has the same length, each character lower-cased in place, and no capitals |
| Text.ToLowerOfLower | src/hooks/useVoice.ts:24 | lower-casing text that has no capitals is the identity |
| Text.Trim | src/hooks/useVoice.ts:20 | `trim` gives a contiguous piece of its input that neither starts nor ends with white space, and everything cut off on either side is white space |
| Text.Contains | src/hooks/useVoice.ts:24 | the empty phrase is in every text; an included phrase is no longer than the text, and each of its characters occurs in the text |
| Text.TrimPadding | src/hooks/useVoice.ts:20 | `trim` removes exactly the surrounding whitespace and keeps the text between |
| Text.ContainsIffOccurs | src/hooks/useVoice.ts:24 | `includes` holds exactly when the phrase occurs at some index |
| Text.OccurrenceContains | src/hooks/useVoice.ts:24 | an occurrence at any index makes `includes` true |
| Text.NatToString | src/components/Navigation/RouteReplay.tsx:56 | a number renders as a non-empty string of digits with no leading zero |
| Text.NatToStringRoundTrip | src/components/Navigation/RouteReplay.tsx:56 | reading a rendered number back gives the number |
| Voice.Normalise | src/hooks/useVoice.ts:20 | a normalised transcript has no capitals and no whitespace at either end |
| Voice.NormaliseIdempotent | src/hooks/useVoice.ts:20 | normalising twice is the same as normalising once |
| Voice.Matches | src/hooks/useVoice.ts:23-24 | a command matches exactly when its lower-cased phrase occurs in the transcript at some index |
| Voice.FindCommand | src/hooks/useVoice.ts:23-25 | the chosen command matches and no earlier command matches; none is chosen exactly when no command matches |
| Voice.Classify | src/hooks/useVoice.ts:35-53 | aborted while not listening is suppressed; aborted while listening warns; no-speech re-prompts; anything else gives up (each an if-and-only-if) |
| Voice.ResolveUtterance | src/hooks/useVoice.ts:93-96 | each setting is the override when present and non-zero, else the speech rate, pitch 1 or volume 0.8 |
| Voice.OrElse | src/hooks/useVoice.ts:94-96 | `||` on an optional number: an absent option or 0 gives the fallback; any other value is kept |
| Voice.VoiceEngine.constructor | src/hooks/useVoice.ts:5-8 | not listening, empty last command, speech rate 0.9, nothing said |
| Voice.VoiceEngine.IsSupported | src/hooks/useVoice.ts:112 | support means exactly that a recogniser was created; speech synthesis plays no part in it |
| Voice.VoiceEngine.Speak | src/hooks/useVoice.ts:88-100 | cancels current speech, then queues exactly the new utterance, so at most one is active; nothing happens without synthesis |
| Voice.VoiceEngine.SetSpeechSettings | src/hooks/useVoice.ts:102-104 | the speech rate becomes the given rate |
| Voice.VoiceEngine.StartListening | src/hooks/useVoice.ts:72-78 | with a recogniser: capture starts, listening is set, the activation message is said; without one nothing changes |
| Voice.VoiceEngine.StopListening | src/hooks/useVoice.ts:80-86 | with a recogniser: listening is cleared, capture stops, the deactivation message is said; without one nothing changes |
| Voice.VoiceEngine.OnResult | src/hooks/useVoice.ts:19-33 | the last command is the normalised last transcript; the first matching command is announced and its action runs exactly once; otherwise the not-recognised message is said and no action runs |
| Voice.VoiceEngine.OnError | src/hooks/useVoice.ts:35-53 | per error class: silence and no change; or the restart warning with listening kept; or the re-prompt with listening unchanged; or listening cleared and the failure notice said |
| Voice.VoiceEngine.OnEnd | src/hooks/useVoice.ts:55-60 | capture restarts if and only if still listening |
| Gestures.TapCountAfter | src/hooks/useGestures.ts:13-17 | a gap under 500 ms extends the burst by one; a gap of 500 ms or more starts a new burst of one |
| Gestures.CountAfterTaps | src/hooks/useGestures.ts:9-20 | the count starts at 0 and, after any taps, lies between 1 and the number of taps |
| Gestures.CountIsFinalBurst | src/hooks/useGestures.ts:9-20 | the count is the length of the final run of taps spaced under 500 ms, and a gap of 500 ms or more precedes that run |
| Gestures.ShakeMagnitude | src/hooks/useGestures.ts:50-54 | the movement between samples is never negative, and it is zero exactly when the samples are equal |
| Gestures.ToSample | src/hooks/useGestures.ts:48 | each axis is taken as delivered, and a missing axis reads as 0 |
| Gestures.IsShake | src/hooks/useGestures.ts:50-54 | the test is strict: a move of exactly 15 is no shake; a shake always changes the sample; swapping the two samples does not change the answer |
| Gestures.GestureDetector.constructor | src/hooks/useGestures.ts:4-6 | no taps, last tap at 0, no cooldown, retained sample at the origin, no signals |
| Gestures.GestureDetector.Tap | src/hooks/useGestures.ts:9-20 | a gap under 500 ms increments the count, any other gap sets it to 1; the last tap time becomes now; a changed count re-arms the debounce 500 ms ahead |
| Gestures.GestureDetector.FireTapTimer | src/hooks/useGestures.ts:23-37 | a count of 3 or more raises one SOS plus the tap vibration; fewer raises nothing; the count always returns to 0 |
| Gestures.GestureDetector.OnMotion | src/hooks/useGestures.ts:44-70 | no reading changes nothing; a move above 15 outside cooldown raises one SOS plus the shake vibration, starts a 2000 ms cooldown and resets the retained sample; any other reading is retained |
| Gestures.GestureDetector.FireCooldownTimer | src/hooks/useGestures.ts:63 | the cooldown ends and the retained sample is back at the origin |
| SpatialAudio.PanFor | src/hooks/useSpatialAudio.ts:28-38 | left is -0.8, right 0.8, center 0 (each an if-and-only-if), and the pan never exceeds 0.8 in size |
| SpatialAudio.PlayDirectionalSound | src/hooks/useSpatialAudio.ts:16-51 | no context gives no tone; otherwise the tone has the direction's pan and the given frequency, starts at the context time with gain 0.3, and ramps to 0.01 at the stop time, duration/1000 s later |
| SpatialAudio.PlayNavigationCue | src/hooks/useSpatialAudio.ts:54-66 | left is 300 Hz for 0.3 s panned -0.8; right is 500 Hz for 0.3 s panned 0.8; straight is 400 Hz for 0.2 s centred |
| SpatialAudio.CuePreset | src/hooks/useSpatialAudio.ts:54-66 | each cue has its own direction (left, right or centre, each used by exactly one cue): left is 300 Hz for 300 ms, right 500 Hz for 300 ms, straight 400 Hz for 200 ms |
| SpatialAudio.DefaultToneIsHalfSecondAt440 | src/hooks/useSpatialAudio.ts:18-19 | with no explicit frequency or duration, the tone is 440 Hz for 0.5 s |
| Emergency.NewContact | src/components/Emergency/EmergencyPage.tsx:101-106 | the new contact keeps id, name and phone; its relationship is the entered one, or 'Contact' when that is empty |
| Emergency.IsComplete | src/components/Emergency/EmergencyPage.tsx:96 | a form is complete exactly when name and phone are both non-empty; the empty form is not complete (the same test guards the edit form at line 125) |
| Emergency.Edited | src/components/Emergency/EmergencyPage.tsx:130-134 | length, order and ids are kept; contacts with the edited id get the form's fields; every other contact is unchanged |
| Emergency.WithoutId | src/components/Emergency/EmergencyPage.tsx:144 | the result holds exactly the contacts whose id differs |
| Emergency.WithoutIdAppend | src/components/Emergency/EmergencyPage.tsx:144 | deleting distributes over concatenation, so the survivors keep their order |
| Emergency.WithoutAbsentId | src/components/Emergency/EmergencyPage.tsx:144 | deleting an id no contact has leaves the list unchanged |
| Emergency.AddThenDelete | src/components/Emergency/EmergencyPage.tsx:95-147 | deleting a contact just saved under a fresh id restores the earlier list |
| Emergency.FindById | src/components/Emergency/EmergencyPage.tsx:143 | the first contact with the id, or none exactly when no contact has it |
| Emergency.IsEmergencyContact | src/components/Emergency/EmergencyPage.tsx:43 | a contact qualifies exactly when its phone is 911 or its relationship spells "emergency" with each letter in either case |
| Emergency.FindEmergencyContact | src/components/Emergency/EmergencyPage.tsx:43 | the first contact with phone 911 or relationship 'emergency' in any case, or none exactly when there is no such contact |
| Emergency.PageCommandPatternsAreLower | src/components/Emergency/EmergencyPage.tsx:20-76 | the page's phrases are already lower case, so they are matched as written |
| Emergency.PageCommands | src/components/Emergency/EmergencyPage.tsx:20-76 | the five phrases in registration order, each bound to its own action, and no action registered twice |
| Emergency.SampleMissesAddContact | src/components/Emergency/EmergencyPage.tsx:22 | "cancel call emergency" does not contain 'add contact' |
| Emergency.SampleMissesCallFirstContact | src/components/Emergency/EmergencyPage.tsx:30 | "cancel call emergency" does not contain 'call first contact' |
| Emergency.SampleHitsCallEmergency | src/components/Emergency/EmergencyPage.tsx:41 | "cancel call emergency" contains 'call emergency' |
| Emergency.FirstRegisteredPhraseWins | src/components/Emergency/EmergencyPage.tsx:20-76 | with both 'cancel' and 'call emergency' spoken, the earlier-registered 'call emergency' is chosen |
| Emergency.SpokenPhraseLowerCases | src/hooks/useVoice.ts:20 | lower-casing the spoken phrase gives its lower-case form |
| Emergency.SpokenPhraseTrims | src/hooks/useVoice.ts:20 | trimming the padded phrase gives the bare phrase |
| Emergency.SpokenPhraseNormalises | src/hooks/useVoice.ts:20 | "  Cancel Call Emergency " normalises to "cancel call emergency" |
| Emergency.EmergencyPage.constructor | src/components/Emergency/EmergencyPage.tsx:14-17 | not adding, not editing, both forms empty |
| Emergency.EmergencyPage.Call | src/components/Emergency/EmergencyPage.tsx:80-88 | dials the phone, says "Calling <name>", and vibrates when the device can |
| Emergency.EmergencyPage.AddContact | src/components/Emergency/EmergencyPage.tsx:90-93 | adding mode starts and the instructions are said |
| Emergency.EmergencyPage.SetNewContact | src/components/Emergency/EmergencyPage.tsx:242-270 | the add form holds what was typed |
| Emergency.EmergencyPage.SetEditContact | src/components/Emergency/EmergencyPage.tsx:322-340 | the edit form holds what was typed |
| Emergency.EmergencyPage.SaveNewContact | src/components/Emergency/EmergencyPage.tsx:95-112 | an empty name or phone only prompts; otherwise exactly one new contact is appended, the form is cleared and adding mode ends |
| Emergency.EmergencyPage.BeginEdit | src/components/Emergency/EmergencyPage.tsx:114-122 | editing the contact's id, with its fields in the form |
| Emergency.EmergencyPage.SaveEdit | src/components/Emergency/EmergencyPage.tsx:124-140 | an empty name or phone only prompts; otherwise only contacts with the edited id change, and editing mode ends |
| Emergency.EmergencyPage.DeleteContact | src/components/Emergency/EmergencyPage.tsx:142-147 | every contact with the id is removed; the first one's name is said, or "undefined" when none had the id |
| Emergency.EmergencyPage.CancelAdd | src/components/Emergency/EmergencyPage.tsx:288-291 | adding mode ends and the add form is cleared |
| Emergency.EmergencyPage.CancelEdit | src/components/Emergency/EmergencyPage.tsx:357-360 | editing mode ends and the edit form is cleared |
| Emergency.EmergencyPage.VoiceAddContact | src/components/Emergency/EmergencyPage.tsx:21-28 | adding mode starts and the short instructions are said |
| Emergency.EmergencyPage.VoiceCallFirstContact | src/components/Emergency/EmergencyPage.tsx:29-39 | calls the first contact when there is one, else says none are available |
| Emergency.EmergencyPage.VoiceCallEmergency | src/components/Emergency/EmergencyPage.tsx:40-53 | calls the first emergency contact, or dials 911 when there is none |
| Emergency.EmergencyPage.IsEditing | src/components/Emergency/EmergencyPage.tsx:59 | `editingContact` is truthy: editing needs an id, the empty id does not count, and any non-empty id does |
| Emergency.EmergencyPage.VoiceSaveContact | src/components/Emergency/EmergencyPage.tsx:54-64 | while adding: a complete form appends the contact, clears the form, ends adding and announces the name; an incomplete one only prompts. Else while editing: a complete form rewrites the edited id, ends editing, clears the edit form and says "Contact updated successfully"; an incomplete one only prompts. Otherwise nothing changes and nothing is said |
| Emergency.EmergencyPage.VoiceCancel | src/components/Emergency/EmergencyPage.tsx:65-75 | both modes end and both forms are cleared; the list is unchanged |
| Emergency.EmergencyPage.RunAction | src/components/Emergency/EmergencyPage.tsx:20-76 | each command has exactly its handler's effect. Add starts adding with the short instructions and leaves the forms and the editing id alone. Call first contact calls contacts[0] or says none are available. Call emergency calls the first emergency contact or dials 911. Neither call changes the page state. Save follows the save rules. Cancel ends both modes and clears both forms. Only save can change the list |
| Onboarding.WithPreference | src/components/Onboarding/OnboardingFlow.tsx:67-69 | the named preference takes the value and the others keep theirs |
| Onboarding.NextStep | src/components/Onboarding/OnboardingFlow.tsx:53-59 | one step further below the last step; unchanged on it |
| Onboarding.PreviousStep | src/components/Onboarding/OnboardingFlow.tsx:61-65 | one step back above the first step; unchanged on it |
| Onboarding.StepsStayInRange | src/components/Onboarding/OnboardingFlow.tsx:53-65 | no sequence of Next and Previous leaves steps 0 to 3 |
| Onboarding.NextsReachLastStep | src/components/Onboarding/OnboardingFlow.tsx:17-59 | n Nexts from the first step reach step n, capped at the last step |
| Onboarding.ProgressPercent | src/components/Onboarding/OnboardingFlow.tsx:268-269 | progress is 25, 50, 75 or 100 percent, and it is 100 exactly at the last step |
| Onboarding.OnboardingFlow.constructor | src/components/Onboarding/OnboardingFlow.tsx:45-51 | step 0 with voice on, high contrast off, large text off and haptics on |
| Onboarding.OnboardingFlow.HandleNext | src/components/Onboarding/OnboardingFlow.tsx:53-59 | advances below the last step; on it, completes once with the current preferences |
| Onboarding.OnboardingFlow.HandlePrevious | src/components/Onboarding/OnboardingFlow.tsx:61-65 | goes back unless on the first step |
| Onboarding.OnboardingFlow.HandlePreferenceChange | src/components/Onboarding/OnboardingFlow.tsx:67-69 | only the named preference changes |
| RouteReplay.TickStep | src/components/Navigation/RouteReplay.tsx:40-51 | paused: no change; playing before the last point: one point further; playing at or past it: stops in place |
| RouteReplay.PlaybackFromStart | src/components/Navigation/RouteReplay.tsx:40-51 | played from the start, tick n is at point n until the last point, then stops there; an empty route stops at once |
| RouteReplay.SplitDuration | src/components/Navigation/RouteReplay.tsx:53-56 | minutes times 60 plus seconds is the duration, with seconds under 60 |
| RouteReplay.FormatDuration | src/components/Navigation/RouteReplay.tsx:53-57 | the string's two fields are numerals without leading zeros that read back as the whole minutes and the remaining seconds, which are under 60, so the whole string reads back as the same number of seconds |
| RouteReplay.NoZeroPaddedSeconds | src/components/Navigation/RouteReplay.tsx:56 | fields are rendered without zero padding: no duration is shown as "1m 05s" |
| RouteReplay.RouteReplayPlayer.constructor | src/components/Navigation/RouteReplay.tsx:12-14 | no session, not playing, index 0 |
| RouteReplay.RouteReplayPlayer.PlaySession | src/components/Navigation/RouteReplay.tsx:16-21 | selects the session, goes back to its first point, plays, and names both addresses |
| RouteReplay.AddressText | src/components/Navigation/RouteReplay.tsx:20 | a present address is spoken as written, a missing one as "undefined" |
| RouteReplay.RouteReplayPlayer.Pause | src/components/Navigation/RouteReplay.tsx:23-26 | stops playing and keeps the index |
| RouteReplay.RouteReplayPlayer.Resume | src/components/Navigation/RouteReplay.tsx:28-31 | plays again from the same index |
| RouteReplay.RouteReplayPlayer.Restart | src/components/Navigation/RouteReplay.tsx:33-37 | back at the first point and playing, whatever the state before |
| RouteReplay.RouteReplayPlayer.Tick | src/components/Navigation/RouteReplay.tsx:40-51 | follows TickStep for the selected route and says "Route replay completed" exactly when it stops; the index never passes the last point |
| Heatmap.TallyCounts | src/components/Navigation/HeatmapVisualization.tsx:85-92 | each type maps to its exact number of occurrences; only occurring types are keys; an absent type reads as 0 |
| Heatmap.Tally | src/components/Navigation/HeatmapVisualization.tsx:85-92 | the dictionary has no more types than there are data points |
| Heatmap.BumpCountsOneMore | src/components/Navigation/HeatmapVisualization.tsx:87 | one reduction step adds the point's type if it is new, counts it once more (1 when new), and leaves every other type's count alone |
| Heatmap.StatOrZero | src/components/Navigation/HeatmapVisualization.tsx:87 | `acc[type] || 0`: the recorded count for a type with an entry, 0 for a type without one |
| Heatmap.TallySumsToLength | src/components/Navigation/HeatmapVisualization.tsx:86-89 | the counts sum to the number of data points |
| Heatmap.GetTypeStats | src/components/Navigation/HeatmapVisualization.tsx:85-92 | the in-place reduction produces the tally: keys are the occurring types, values their occurrence counts |
| Heatmap.StatDescription | src/components/Navigation/HeatmapVisualization.tsx:96-104 | popular, blocked and safe each get their own sentence after the count; any other type gets "<n> areas of type <type>"; every sentence begins with the count, which reads back unchanged |
| Heatmap.ButtonAnnouncement | src/components/Navigation/HeatmapVisualization.tsx:120-142 | a type button speaks the clicked type's own sentence for that type's number of occurrences in the data (0 when absent), and the number it begins with is that count |

## Left out

- JSX rendering, animation, CSS, focus announcements ('Name field focused' and the like) and the presentational components are not modelled. They hold no logic beyond setters.
- React effect mechanics are left out. The recogniser is re-created when `commands` or `isListening` change, and handlers keep stale closures. The model has one engine, and its handlers read the current `listening`. So the recogniser stop that follows from re-running the effect after `setIsListening` is not modelled.
- Voice.VoiceEngine.UtteranceFinished: the synthesiser finishing an utterance is a platform event that no line of the hook handles. The method only empties `pending`, so that `Speak`'s one-utterance-at-a-time rule can be stated.
- Voice.VoiceEngine.StartListening: a `start()` that the platform rejects because capture is already running is not modelled.
- Voice.VoiceEngine.OnResult: only the top transcript of each result is kept, not the other alternatives. `results` stands for `event.results`, which the platform never delivers empty.
- Voice.VoiceEngine.OnError: the `console.warn` diagnostics are not modelled.
- Text.NatToString: `${n}` switches to exponent notation for n of 1e21 and above. Only the plain decimal form is modelled.
- Text.LowerChar: lower-casing covers ASCII letters only. Unicode case mapping is not modelled.
- Voice.OrElse: a NaN override, which is also falsy in JavaScript, is not modelled, because rates are `real`.
- Gestures.GestureDetector: `motionEnabled` is fixed at construction. The asynchronous iOS permission prompt is not modelled.
- Gestures.GestureDetector.OnMotion: the window between the cooldown flag changing and the listener being re-registered is not modelled. During it, a second event could still be seen by the old listener.
- Gestures.ShakeMagnitude: the magnitude is an exact real. IEEE double rounding, which can decide a comparison with 15 right at the threshold (src/hooks/useGestures.ts:50-54), is not modelled.
- Gestures: time is whole milliseconds taken as a parameter (`Date.now()` is a clock). Timers fire only when their `Fire` method is called.
- SpatialAudio.PlayDirectionalSound: the Web Audio node graph is reduced to the settings it receives. The exponential shape of the gain ramp and floating-point time arithmetic are not modelled. The audio context is created once and passed in.
- Emergency: the contact list belongs to the parent component. `onUpdateContacts` is modelled as assigning `contacts`, and `window.open('tel:…')` as a `Dial` effect.
- Emergency.EmergencyPage.SaveNewContact: the id `Date.now().toString()` is a parameter, so ids are not shown to be unique.
- Emergency.EmergencyPage: speech from the page goes through the voice engine's `speak`. Here it is a single `Say` effect, without the synthesis-availability check.
- RouteReplay: durations are whole seconds (`nat`). Fractional or negative durations, and `formatDate`, are not modelled.
- RouteReplay.RouteReplayPlayer.Tick: the one-second delay is not modelled. A tick is one firing of the playback effect.
- RouteReplay.RouteReplayPlayer.PlaySession: a missing address is spoken as "undefined", as the template literal does. No other rendering of addresses is modelled.
- Heatmap: the accumulator is a dictionary with no inherited keys. JavaScript object keys such as "constructor" or "__proto__", which would behave differently, are not modelled.
- Heatmap.StatDescription: `descriptions[type]` is an object lookup. A type named after an inherited property such as "toString" would find that property instead of falling back to "areas of type". Only the three own keys are modelled.
- Heatmap: canvas drawing and its coordinate arithmetic are not modelled. The `HeatmapData` type declaration is not part of this model; a point's fields are taken from their use in `HeatmapVisualization.tsx`.
- Onboarding: the per-step content and the preference toggles' rendering are not modelled. `onComplete` is recorded in the ghost log `completions`.
- Backend, persistence, geolocation, form validation libraries and random demo data are outside the modelled core.
