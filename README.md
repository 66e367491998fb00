# Soundverse voice assistant: a Dafny model of the page's controller

The page `index.tsx` lets a user speak commands that apply an audio effect to an
uploaded file while a speech synthesiser answers. This project models the
decision logic inside that page:

- **Effect graph builder** (`effects.dfy`, module `Effects`). The `switch` of
  `playWithEffect` maps an effect name to one stage with fixed parameters.
  `"reverb"` gives a convolver with a 2-channel impulse of `sampleRate` samples.
  `"delay"` gives a 0.3 s delay. `"lowpass"`/`"highpass"` give a biquad of that
  type at 800 Hz. `"gain+"`/`"gain-"` give a gain of 1.5/0.5. Any other name is
  alerted and rejected. The module also holds the wiring source → stage →
  destination, the guards of `playWithEffect` and `playAudio`, and the nested
  loops that fill the reverb impulse (`CreateImpulse`, a method over an
  `array2<real>`). Constants are exact `real`s.
- **Turn decision** (`turn.dfy`, module `Turn`). The effect hook on `transcript`
  decides what to play, what to say at once and what to say after the timer. It
  also builds the confirmation text with two first-occurrence replacements
  (`text.dfy`, module `Text`: `String.replace` with a one-character pattern).
- **Session** (`session.dfy`, module `Session`). The page's state is a value:
  its React state and refs, the recognition hook's `listening` and
  `transcript`, the speech synthesis queue, the pending timers, the alerts
  shown and the sources started. Each event gets one transition, and `Run`
  folds a trace of events. Lemmas over traces state how listening and speaking
  alternate and what holds in every reachable state.
- **The component** (`home.dfy`, class `HomePage.Home`). It has one field per
  piece of state. Each handler (`Speak`, `StartMic`, `StopMic`,
  `HandleAudioUpload`, `PlayWithEffect`, `PlayAudio`, `Hear`) and each callback
  (`UtteranceEnds`, `TimerFires`) updates the fields in place. Each one
  promises that `State()` afterwards is the matching `Session` transition of
  the old state.

What the code does, modelled as written:

- `uploadedBuffer` is never assigned: its setter is never called
  (index.tsx:7). So `playWithEffect` always returns at its guard
  (index.tsx:91), even after an upload. `Session.VoiceNeverPlays` proves that in
  every reachable state a spoken command neither creates nor starts a source.
  `Session.ConfirmedButNotPlayed` proves that such a command is still confirmed
  and followed by the next-step prompt.
- `if (effect)` is JavaScript truthiness, so an empty effect name counts as no
  effect (`Turn.Truthy`).
- The hook runs only when the transcript value changes, and
  `resetTranscript` is taken to set it to `""`, on which the hook returns at once.
- Every utterance's `onend` starts listening. The farewell of `stopMic` goes
  through `speak`, so its end starts listening again after the session has
  stopped. One utterance ending also starts listening while another is still
  queued (`Session.StopDuringGreeting`).

- `stopMic` cancels no queued utterance and no pending timer: both still run
  after the session stops, and each still re-arms or speaks as before.
- Only the play button uses the decoded upload: `playAudio` plays
  `audioBuffer` (index.tsx:149-152), which `handleAudioUpload` sets
  (index.tsx:80). The voice path reads the never-set `uploadedBuffer` instead.
- The `switch`'s default branch would alert "Unknown effect: …" and return
  without connecting or starting anything, after which the hook would still
  speak the confirmation. It is never reached: the guard at index.tsx:91
  returns first in every reachable state, so no such alert is ever raised.
- The effect names are the strings `"gain+"`/`"gain-"`.
- `setAudioFile` (index.tsx:73) is modelled as the `audioFile` field; nothing
  reads it.

## Model

| member | source | states |
|---|---|---|
| Text.ReplaceFirst | index.tsx:174 | defines `s.replace(c, rep)` for a one-character pattern and a replacement without `$` patterns: the text before the first occurrence, then `rep`, then the rest; the string itself when there is none (its behaviour is pinned down by ReplaceFirstAbsent and ReplaceFirstAt) |
| Text.IndexOf | index.tsx:174 | the first occurrence of a character: none exactly when the character is absent, otherwise an index holding it with no earlier occurrence |
| Text.ReplaceFirstAbsent | index.tsx:174 | replacing a character the string does not contain leaves the string unchanged |
| Text.ReplaceFirstAt | index.tsx:174 | in `a + c + b` with `c` not in `a`, the replacement yields `a + rep + b`: only the first occurrence is replaced, later ones are kept |
| Text.ReplaceFirstRemovesOne | index.tsx:174 | with a replacement free of the character, exactly one occurrence disappears |
| Effects.EffectOf | index.tsx:99-132 | defines the inverse of the dispatch table: the effect name that selects a given stage at a given rate, if any |
| Effects.SelectStage | index.tsx:99-137 | a stage is selected exactly for the six names; every other name takes the default branch with the alert "Unknown effect: " + name |
| Effects.StageParameters | index.tsx:100-132 | reverb: convolver of 2 channels × sampleRate samples at sampleRate; delay 0.3; lowpass/highpass: biquad of that type at 800; gain+ 1.5; gain- 0.5 |
| Effects.SelectThenName | index.tsx:99-132 | every recognised name selects a stage that the inverse table maps back to that name |
| Effects.NameThenSelect | index.tsx:99-132 | every stage the inverse table names is exactly the stage its name selects |
| Effects.SelectInjective | index.tsx:99-132 | distinct recognised names select distinct stages |
| Effects.Chain | index.tsx:139-144 | defines the node sequence of a playback graph: source, the stage if there is one, destination |
| Effects.PathEdges | index.tsx:139-144 | one connection per pair of consecutive nodes of a path; a path of n ≥ 2 nodes has n − 1 connections |
| Effects.PathEdgesAt | index.tsx:139-144 | the k-th connection of a path joins its k-th and (k+1)-th nodes |
| Effects.PathEdgesMembership | index.tsx:139-144 | an edge is among a path's connections exactly when it joins two consecutive nodes |
| Effects.Wire | index.tsx:139-144 | the connections made are those of the chain source → (stage) → destination |
| Effects.PlayWithEffect | index.tsx:87-147 | returns at the guard exactly when the context or the buffer is absent; rejects exactly the unknown names (source created, alert raised, nothing connected or started); otherwise starts a source on the buffer wired along the chain of the selected stage |
| Effects.PlayWithEffectWiring | index.tsx:139-146 | on a recognised name the graph has exactly the edges source→stage and stage→destination and no other |
| Effects.PlayAudio | index.tsx:148-157 | never rejects; does nothing exactly when the decoded buffer or the context is absent; otherwise starts one source on the decoded buffer connected straight to the destination |
| Effects.ImpulseSample | index.tsx:106 | defines sample j of an impulse channel, `(u * 2 - 1) * (1 - j / length)^2`, for a value u of the random source (bounded by ImpulseSampleBounds) |
| Effects.Envelope | index.tsx:106 | the decay envelope lies in (0, 1] |
| Effects.ImpulseSampleBounds | index.tsx:106 | for a random value in [0, 1) every impulse sample lies within ± the envelope, hence in [-1, 1] |
| Effects.EnvelopeDecays | index.tsx:106 | the envelope strictly decreases along a channel |
| Effects.CreateImpulse | index.tsx:101-108 | a fresh 2 × sampleRate buffer in which every sample of every channel is written with its decaying random value |
| Turn.Truthy | index.tsx:164 | defines JavaScript truthiness of the mapper's result: false for `null` and for the empty string |
| Turn.Confirmation | index.tsx:174 | defines the confirmation text: "Sure, applying " and the effect with its first `+` then its first `-` replaced (its values are given by ConfirmationPlain, ConfirmationIncrease, ConfirmationDecrease, ConfirmationPlusFirst and ConfirmationMinusFirst) |
| Turn.PlanTurn | index.tsx:160-182 | playback is attempted exactly for a non-empty transcript with a truthy effect and a file uploaded; a follow-up is queued exactly when playback is attempted; something is said exactly when the transcript is non-empty |
| Turn.EmptyTranscript | index.tsx:161 | an empty transcript plays, says and queues nothing |
| Turn.NoEffect | index.tsx:179-181 | a transcript without an effect only says "Sorry, I didn't catch that effect. Can you repeat?" |
| Turn.EffectWithoutFile | index.tsx:167-172 | an effect with no file uploaded only says "Please upload an audio file first." and queues nothing |
| Turn.EffectWithFile | index.tsx:164-178 | an effect with a file uploaded is played, then confirmed, then "What would you like to do next?" is queued |
| Turn.ConfirmationPlain | index.tsx:174 | a name with neither `+` nor `-` is confirmed unchanged after "Sure, applying " |
| Turn.ConfirmationIncrease | index.tsx:174 | the first `+` of a name without `-` is read " increase" |
| Turn.ConfirmationDecrease | index.tsx:174 | the first `-` of a name without `+` is read " decrease" |
| Turn.ConfirmationPlusFirst | index.tsx:174 | in a name whose first `+` comes before its first `-`, both are read in words in place: `a+b-c` gives "Sure, applying a increaseb decreasec" |
| Turn.ConfirmationMinusFirst | index.tsx:174 | in a name whose first `-` comes before its first `+`, both are read in words in place: `a-b+c` gives "Sure, applying a decreaseb increasec" |
| Turn.GainUpConfirmation | index.tsx:174 | "gain+" is confirmed as "Sure, applying gain increase" |
| Turn.GainDownConfirmation | index.tsx:174 | "gain-" is confirmed as "Sure, applying gain decrease" |
| Session.Speak | index.tsx:26-38 | defines speak: listening off, then the text appended to the speech queue |
| Session.StartMicStep | index.tsx:40-59 | defines the startMic transition (summarised by StartMicOutcome) |
| Session.StopMicStep | index.tsx:61-67 | defines the stopMic transition (summarised by StopMicOutcome) |
| Session.UploadStep | index.tsx:69-84 | defines the handleAudioUpload transition (summarised by UploadOutcome) |
| Session.ApplyEffectPlay | index.tsx:93-146 | defines the state change of one playWithEffect outcome: none on a skip; the source ref and an alert on a rejection; the source ref and one started source otherwise |
| Session.PlayButtonStep | index.tsx:148-157 | defines the playAudio transition (summarised by PlayButtonStartsOnce) |
| Session.HeardStep | index.tsx:160-182 | defines the effect hook's transition: nothing for an unchanged transcript; otherwise the transcript, then PlanTurn's play, utterance and timer applied in that order |
| Session.UtteranceEndStep | index.tsx:33-35 | defines the end of the head utterance: dequeued, listening on; nothing when the queue is empty |
| Session.TimerFireStep | index.tsx:176-178 | defines the firing of the oldest timer: removed, its text spoken; nothing when no timer is pending |
| Session.Step | index.tsx:26-182 | defines the page's reaction to each event by the transitions above |
| Session.Run | index.tsx:26-182 | defines the state after a trace of events, one Step at a time |
| Session.SpeakingStopsListening | index.tsx:26-38 | every event that queues an utterance leaves listening off |
| Session.OnlyUtteranceEndListens | index.tsx:32-35 | every event other than an utterance's end leaves listening off when it was off |
| Session.SilentUntilUtteranceEnds | index.tsx:32-37 | along any trace without an utterance end, listening stays off once it is off |
| Session.UtteranceEndListens | index.tsx:33-35 | an utterance's end dequeues it and starts listening, even with more utterances queued |
| Session.StopDuringGreeting | index.tsx:61-67 | start then stop queues greeting and farewell; the greeting's end re-arms listening while the farewell is queued, and the farewell's end re-arms it after the session stopped |
| Session.StepConsistent | index.tsx:7 | every transition keeps `uploadedBuffer` unset, the upload flag tied to the decoded buffer and the source ref unset |
| Session.RunConsistent | index.tsx:7 | every trace keeps those facts |
| Session.VoiceNeverPlays | index.tsx:87-91 | in every reachable state a new transcript neither starts nor creates a source |
| Session.ConfirmedButNotPlayed | index.tsx:164-178 | in a reachable state with a file uploaded, an effect is confirmed and the next prompt queued, with nothing played and no alert |
| Session.UploadedMeansBuffer | index.tsx:69-84 | in every reachable state the upload flag is set exactly when a decoded buffer is held |
| Session.PlayButtonStartsOnce | index.tsx:148-157 | with a buffer and a context, the play button starts exactly one source wired to the destination and changes nothing else; otherwise nothing changes |
| Session.StartMicOutcome | index.tsx:40-59 | a granted start records, keeps the stream and a new context, resets the transcript, greets with listening off; a refused one only alerts |
| Session.StopMicOutcome | index.tsx:61-67 | stop ends recording and the stream, closes the context, stops listening and queues the farewell |
| Session.UploadOutcome | index.tsx:69-84 | no file changes nothing; a failed decode keeps only the file; a decoded upload holds the buffer and sets the upload flag |
| Session.TimerSpeaks | index.tsx:176-178 | a firing timer speaks its prompt after what is queued, with listening off |
| Session.EffectBeforeUpload | index.tsx:167-172 | after a granted start and before any upload, an effect only adds the upload prompt; no timer, nothing played |
| Session.UnrecognisedTranscript | index.tsx:179-181 | a new transcript with no effect records the transcript and adds only the repeat prompt |
| HomePage.Home.constructor | index.tsx:6-24 | the first render's state: `Session.Initial`, the `useState`/`useRef` defaults (everything false, null or empty) |
| HomePage.Home.Speak | index.tsx:26-38 | listening off, the text appended to the speech queue, nothing else changed |
| HomePage.Home.StartMic | index.tsx:40-59 | the start transition; granted: recording, stream on, greeting queued, listening off; refused: recording unchanged, alert |
| HomePage.Home.StopMic | index.tsx:61-67 | the stop transition: not recording, stream off, listening off, farewell queued |
| HomePage.Home.HandleAudioUpload | index.tsx:69-84 | the upload transition: no file leaves the state unchanged; a decoded file sets the buffer and the upload flag |
| HomePage.Home.PlayWithEffect | index.tsx:87-147 | outcome as Effects.PlayWithEffect on the context ref and `uploadedBuffer`; the state change it implies; on a started reverb, a fresh impulse of 2 × sampleRate fully written |
| HomePage.Home.PlayAudio | index.tsx:148-157 | outcome as Effects.PlayAudio; a started source is logged once; a skip changes nothing |
| HomePage.Home.Hear | index.tsx:160-182 | the effect hook's transition for a new transcript |
| HomePage.Home.UtteranceEnds | index.tsx:33-35 | the head of the speech queue ends, is returned, and listening starts |
| HomePage.Home.TimerFires | index.tsx:176-178 | the oldest timer is removed and its prompt spoken with listening off |

## Left out

- The JSX and the button wiring (index.tsx:188-250) are UI. The buttons' `disabled` states are not modelled, so `StartMic` and `StopMic` can be given in any order.
- Browser services become event parameters or flags. Whether `getUserMedia` grants the microphone and what `decodeAudioData` returns are parameters. The new context's sample rate is a parameter. Track stopping is the `streamActive` flag and `close()` is the `closed` flag.
- The microphone's own route to the speakers (index.tsx:48-49) is not modelled.
- A failure after `getUserMedia` succeeds, when the context is created, is modelled as a refusal. The partial update of `streamRef` in that case is not modelled.
- Effects.CreateImpulse: its samples are exact reals computed from an injected random source `draw`. Float32 rounding, `Math.random` itself and the floating-point `Math.pow` are not modelled.
- `mapIntentToEffect` and `useSpeechRecognition` are not part of this model; their sources are not available. The mapper is a function parameter. The hook is the `transcript` and `listening` fields, and recognition delivers transcripts as `Heard` events.
- The timer's 1000 ms delay is not modelled. Pending timers fire in the order they were set, each only when its event is given.
- The utterances' `lang` and `rate`, `console.log` and `console.error` are left out because they do not affect state.
- `handleFileUpload` (index.tsx:184-186) is dead code that only throws.
- The `await` points are not interleaved: each handler runs as one step.
- The end of playback is not modelled, and started sources are only logged.
