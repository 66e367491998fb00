/**
 * The page's state (its React state, its refs, the recognition hook's
 * listening flag and transcript, and the browser's speech and timer queues)
 * as a value, with one transition per event the page reacts to.
 */
module Session {
  import opened Wrappers
  import opened Effects
  import Turn

  const Greeting: string := "Hey, how may I help you?"
  const Farewell: string := "Okay, ending the session. See you next time!"
  const MicAlert: string := "Mic access denied or not available."

  /** A file chosen in the file input. */
  datatype AudioFile = AudioFile(name: string)

  /**
   * `utterances` is the speech synthesis queue (its head is being spoken),
   * `timers` the pending `setTimeout` callbacks, each of which speaks its
   * text, `alerts` the alerts shown and `played` every source started.
   * `streamActive` says that the microphone stream's tracks are running.
   */
  datatype State = State(
    isRecording: bool,
    uploadedBuffer: Option<AudioBuffer>,
    isFileUploaded: bool,
    audioContext: Option<AudioContext>,
    sourceNode: Option<SourceNode>,
    streamActive: bool,
    audioBuffer: Option<AudioBuffer>,
    audioFile: Option<AudioFile>,
    transcript: string,
    listening: bool,
    utterances: seq<string>,
    timers: seq<string>,
    alerts: seq<string>,
    played: seq<Playback>)

  /** The state on the first render. */
  const Initial: State :=
    State(false, None, false, None, None, false, None, None, "", false, [], [], [], [])

  /** The events the page reacts to. `StartMic` carries whether the browser
      grants the microphone and the new context's rate; `Upload` carries the
      chosen file, the decoding result and the new context's rate; `Heard` is
      a new value of the recognition hook's transcript. */
  datatype Event =
    | StartMic(granted: bool, sampleRate: nat)
    | StopMic
    | Upload(file: Option<AudioFile>, decoded: Option<AudioBuffer>, sampleRate: nat)
    | PlayButton
    | Heard(transcript: string)
    | UtteranceEnd
    | TimerFire

  /** speak: stop listening, then queue the utterance. */
  function Speak(s: State, text: string): State
  {
    s.(listening := false, utterances := s.utterances + [text])
  }

  function SpeakIfAny(s: State, text: Option<string>): State
  {
    match text
    case None => s
    case Some(t) => Speak(s, t)
  }

  /** startMic: on success keep the stream and a new context, start
      listening, reset the transcript, set isRecording and greet; on failure
      only alert. */
  function StartMicStep(s: State, granted: bool, sampleRate: nat): State
  {
    if !granted then s.(alerts := s.alerts + [MicAlert])
    else
      var armed := s.(streamActive := true, audioContext := Some(AudioContext(sampleRate, false)),
                      listening := true, transcript := "", isRecording := true);
      Speak(armed, Greeting)
  }

  /** stopMic: stop the tracks, close the context, stop listening, clear
      isRecording and say goodbye through speak. */
  function StopMicStep(s: State): State
  {
    var closed := match s.audioContext
      case None => None
      case Some(c) => Some(c.(closed := true));
    Speak(s.(streamActive := false, audioContext := closed, listening := false, isRecording := false), Farewell)
  }

  /** handleAudioUpload: nothing without a file; otherwise keep the file and,
      once decoding succeeds, the buffer, the new context and the upload flag. */
  function UploadStep(s: State, file: Option<AudioFile>, decoded: Option<AudioBuffer>, sampleRate: nat): State
  {
    if file.None? then s
    else
      var withFile := s.(audioFile := file);
      match decoded
      case None => withFile
      case Some(buffer) =>
        withFile.(audioBuffer := Some(buffer), audioContext := Some(AudioContext(sampleRate, false)),
                  isFileUploaded := true)
  }

  /** The state change of one playWithEffect call. */
  function ApplyEffectPlay(s: State, outcome: PlayOutcome): State
  {
    match outcome
    case Skipped => s
    case Rejected(source, alert) => s.(sourceNode := Some(source), alerts := s.alerts + [alert])
    case Started(p) => s.(sourceNode := Some(p.source), played := s.played + [p])
  }

  /** playAudio: a started source is logged; nothing else changes. */
  function PlayButtonStep(s: State): State
  {
    match PlayAudio(s.audioBuffer, s.audioContext)
    case Started(p) => s.(played := s.played + [p])
    case _ => s
  }

  /** The effect hook on a transcript value, run only when the value changes. */
  function HeardStep(s: State, t: string, mapIntent: string -> Option<string>): State
  {
    if t == s.transcript then s
    else
      var s1 := s.(transcript := t);
      var plan := Turn.PlanTurn(t, mapIntent, s1.isFileUploaded);
      var s2 := match plan.play
        case None => s1
        case Some(e) => ApplyEffectPlay(s1, PlayWithEffect(s1.audioContext, s1.uploadedBuffer, e));
      var s3 := SpeakIfAny(s2, plan.say);
      match plan.later
      case None => s3
      case Some(text) => s3.(timers := s3.timers + [text])
  }

  /** The end of the utterance at the head of the queue: its `onend` starts
      listening again. */
  function UtteranceEndStep(s: State): State
  {
    if s.utterances == [] then s
    else s.(utterances := s.utterances[1..], listening := true)
  }

  /** The oldest pending timer fires and speaks its text. */
  function TimerFireStep(s: State): State
  {
    if s.timers == [] then s
    else Speak(s.(timers := s.timers[1..]), s.timers[0])
  }

  function Step(s: State, ev: Event, mapIntent: string -> Option<string>): State
  {
    match ev
    case StartMic(granted, rate) => StartMicStep(s, granted, rate)
    case StopMic => StopMicStep(s)
    case Upload(file, decoded, rate) => UploadStep(s, file, decoded, rate)
    case PlayButton => PlayButtonStep(s)
    case Heard(t) => HeardStep(s, t, mapIntent)
    case UtteranceEnd => UtteranceEndStep(s)
    case TimerFire => TimerFireStep(s)
  }

  function Run(s: State, evs: seq<Event>, mapIntent: string -> Option<string>): State
    decreases |evs|
  {
    if evs == [] then s else Run(Step(s, evs[0], mapIntent), evs[1..], mapIntent)
  }

  // ---------------------------------------------------------------- speaking and listening

  /** Every event that queues an utterance leaves listening off. */
  lemma SpeakingStopsListening(s: State, ev: Event, mapIntent: string -> Option<string>)
    requires |Step(s, ev, mapIntent).utterances| > |s.utterances|
    ensures !Step(s, ev, mapIntent).listening
  {
  }

  /** Only the end of an utterance turns listening on: every other event
      leaves it off if it was off. */
  lemma OnlyUtteranceEndListens(s: State, ev: Event, mapIntent: string -> Option<string>)
    requires !ev.UtteranceEnd?
    requires !s.listening
    ensures !Step(s, ev, mapIntent).listening
  {
    match ev
    case Heard(t) =>
      if t != s.transcript {
        var s1 := s.(transcript := t);
        var plan := Turn.PlanTurn(t, mapIntent, s1.isFileUploaded);
        if plan.play.Some? {
          var o := PlayWithEffect(s1.audioContext, s1.uploadedBuffer, plan.play.value);
          assert !ApplyEffectPlay(s1, o).listening;
        }
      }
    case _ =>
  }

  /** So listening stays off from the moment an utterance is queued until
      some utterance ends, whatever else happens meanwhile. */
  lemma {:induction false} SilentUntilUtteranceEnds(s: State, evs: seq<Event>, mapIntent: string -> Option<string>)
    requires !s.listening
    requires forall k :: 0 <= k < |evs| ==> !evs[k].UtteranceEnd?
    ensures !Run(s, evs, mapIntent).listening
    decreases |evs|
  {
    if evs != [] {
      OnlyUtteranceEndListens(s, evs[0], mapIntent);
      SilentUntilUtteranceEnds(Step(s, evs[0], mapIntent), evs[1..], mapIntent);
    }
  }

  /** The end of an utterance takes it off the queue and starts listening,
      even when further utterances are still queued. */
  lemma UtteranceEndListens(s: State, mapIntent: string -> Option<string>)
    requires s.utterances != []
    ensures Step(s, UtteranceEnd, mapIntent).listening
    ensures Step(s, UtteranceEnd, mapIntent).utterances == s.utterances[1..]
  {
  }

  /** A session that is started and at once stopped queues the greeting and
      the farewell; when the greeting ends, listening is on while the farewell
      is still queued, and when the farewell ends listening is on after the
      session was stopped. */
  lemma StopDuringGreeting(rate: nat, mapIntent: string -> Option<string>)
    ensures var s := Run(Initial, [StartMic(true, rate), StopMic, UtteranceEnd], mapIntent);
      s.listening && s.utterances == [Farewell] && !s.isRecording
    ensures var s := Run(Initial, [StartMic(true, rate), StopMic, UtteranceEnd, UtteranceEnd], mapIntent);
      s.listening && s.utterances == [] && !s.isRecording
  {
    var s1 := Step(Initial, StartMic(true, rate), mapIntent);
    assert s1.utterances == [Greeting];
    var s2 := Step(s1, StopMic, mapIntent);
    assert s2.utterances == [Greeting, Farewell];
    var s3 := Step(s2, UtteranceEnd, mapIntent);
    assert s3.utterances == [Farewell];
    assert Run(s3, [], mapIntent) == s3;
    assert Run(s2, [UtteranceEnd], mapIntent) == s3;
    assert Run(s1, [StopMic, UtteranceEnd], mapIntent) == s3;
    var s4 := Step(s3, UtteranceEnd, mapIntent);
    assert Run(s4, [], mapIntent) == s4;
    assert Run(s3, [UtteranceEnd], mapIntent) == s4;
    assert Run(s2, [UtteranceEnd, UtteranceEnd], mapIntent) == s4;
    assert Run(s1, [StopMic, UtteranceEnd, UtteranceEnd], mapIntent) == s4;
  }

  // ---------------------------------------------------------------- reachable states

  /** What holds in every state the page can reach: `uploadedBuffer` is never
      set, the upload flag goes with the decoded buffer, and playWithEffect
      has never got past its guard. */
  ghost predicate Consistent(s: State)
  {
    s.uploadedBuffer.None? && (s.isFileUploaded <==> s.audioBuffer.Some?) && s.sourceNode.None?
  }

  lemma StepConsistent(s: State, ev: Event, mapIntent: string -> Option<string>)
    requires Consistent(s)
    ensures Consistent(Step(s, ev, mapIntent))
  {
    match ev
    case Heard(t) =>
      if t != s.transcript {
        var s1 := s.(transcript := t);
        var plan := Turn.PlanTurn(t, mapIntent, s1.isFileUploaded);
        if plan.play.Some? {
          assert PlayWithEffect(s1.audioContext, s1.uploadedBuffer, plan.play.value) == Skipped;
        }
      }
    case _ =>
  }

  lemma {:induction false} RunConsistent(s: State, evs: seq<Event>, mapIntent: string -> Option<string>)
    requires Consistent(s)
    ensures Consistent(Run(s, evs, mapIntent))
    decreases |evs|
  {
    if evs != [] {
      StepConsistent(s, evs[0], mapIntent);
      RunConsistent(Step(s, evs[0], mapIntent), evs[1..], mapIntent);
    }
  }

  /** In every reachable state the voice handler never starts a source and
      never creates one, even with a file uploaded: only the play button
      starts playback. */
  lemma VoiceNeverPlays(evs: seq<Event>, t: string, mapIntent: string -> Option<string>)
    ensures var s := Run(Initial, evs, mapIntent);
      Step(s, Heard(t), mapIntent).played == s.played &&
      Step(s, Heard(t), mapIntent).sourceNode.None?
  {
    var s := Run(Initial, evs, mapIntent);
    RunConsistent(Initial, evs, mapIntent);
    StepConsistent(s, Heard(t), mapIntent);
    if t != s.transcript {
      var s1 := s.(transcript := t);
      var plan := Turn.PlanTurn(t, mapIntent, s1.isFileUploaded);
      if plan.play.Some? {
        assert PlayWithEffect(s1.audioContext, s1.uploadedBuffer, plan.play.value) == Skipped;
      }
    }
  }

  /** In a reachable state with a file uploaded, a new transcript naming an
      effect is confirmed and followed by the next-step prompt, although
      nothing is played. */
  lemma ConfirmedButNotPlayed(evs: seq<Event>, t: string, mapIntent: string -> Option<string>)
    requires var s := Run(Initial, evs, mapIntent);
      s.isFileUploaded && t != s.transcript && t != "" && Turn.Truthy(mapIntent(t))
    ensures var s := Run(Initial, evs, mapIntent);
      var s' := Step(s, Heard(t), mapIntent);
      s'.utterances == s.utterances + [Turn.Confirmation(mapIntent(t).value)] &&
      s'.timers == s.timers + [Turn.NextPrompt] &&
      s'.played == s.played && s'.alerts == s.alerts && !s'.listening
  {
    var s := Run(Initial, evs, mapIntent);
    RunConsistent(Initial, evs, mapIntent);
    assert PlayWithEffect(s.audioContext, s.uploadedBuffer, mapIntent(t).value) == Skipped;
  }

  /** In every reachable state, the upload flag is set exactly when a decoded
      buffer is held, so the play button plays the upload once a context
      exists. */
  lemma UploadedMeansBuffer(evs: seq<Event>, mapIntent: string -> Option<string>)
    ensures var s := Run(Initial, evs, mapIntent);
      s.isFileUploaded <==> s.audioBuffer.Some?
  {
    RunConsistent(Initial, evs, mapIntent);
  }

  /** The play button starts exactly one source, wired straight to the
      destination, when a buffer and a context are held, and does nothing
      else; otherwise it does nothing. */
  lemma PlayButtonStartsOnce(s: State, mapIntent: string -> Option<string>)
    ensures var s' := Step(s, PlayButton, mapIntent);
      if s.audioBuffer.Some? && s.audioContext.Some? then
        s' == s.(played := s.played + [Playback(SourceNode(s.audioBuffer.value), [Edge(Source, Destination)])])
      else s' == s
  {
  }

  // ---------------------------------------------------------------- session and upload

  /** A granted startMic starts recording and greets; a refused one only
      alerts. */
  lemma StartMicOutcome(s: State, granted: bool, rate: nat, mapIntent: string -> Option<string>)
    ensures var s' := Step(s, StartMic(granted, rate), mapIntent);
      if granted then
        s'.isRecording && s'.streamActive && !s'.listening && s'.transcript == "" &&
        s'.utterances == s.utterances + [Greeting] && s'.audioContext == Some(AudioContext(rate, false))
      else s' == s.(alerts := s.alerts + [MicAlert])
  {
  }

  /** stopMic ends recording, stops listening and queues the farewell. */
  lemma StopMicOutcome(s: State, mapIntent: string -> Option<string>)
    ensures var s' := Step(s, StopMic, mapIntent);
      !s'.isRecording && !s'.streamActive && !s'.listening &&
      s'.utterances == s.utterances + [Farewell] && s'.timers == s.timers &&
      (s.audioContext.Some? ==> s'.audioContext.Some? && s'.audioContext.value.closed)
  {
  }

  /** An upload without a file changes nothing; a decoded upload holds the
      buffer and sets the upload flag; a failed decoding keeps only the file. */
  lemma UploadOutcome(s: State, file: Option<AudioFile>, decoded: Option<AudioBuffer>, rate: nat, mapIntent: string -> Option<string>)
    ensures var s' := Step(s, Upload(file, decoded, rate), mapIntent);
      if file.None? then s' == s
      else if decoded.None? then s' == s.(audioFile := file)
      else s'.audioBuffer == decoded && s'.isFileUploaded && s'.audioFile == file &&
           s'.isRecording == s.isRecording && s'.utterances == s.utterances
  {
  }

  /** A timer that fires speaks its text after what is already queued. */
  lemma TimerSpeaks(s: State, mapIntent: string -> Option<string>)
    requires s.timers != []
    ensures var s' := Step(s, TimerFire, mapIntent);
      s'.utterances == s.utterances + [s.timers[0]] && s'.timers == s.timers[1..] && !s'.listening
  {
  }

  // ---------------------------------------------------------------- turns from the first render

  /** An effect asked for before any upload: only the upload prompt. */
  lemma EffectBeforeUpload(rate: nat, t: string, mapIntent: string -> Option<string>)
    requires t != "" && Turn.Truthy(mapIntent(t))
    ensures var s := Step(Initial, StartMic(true, rate), mapIntent);
      var s' := Step(s, Heard(t), mapIntent);
      s'.utterances == s.utterances + [Turn.UploadPrompt] && s'.timers == [] && s'.played == []
  {
  }

  /** A transcript without an effect: only the repeat prompt, nothing else. */
  lemma UnrecognisedTranscript(s: State, t: string, mapIntent: string -> Option<string>)
    requires t != s.transcript && t != "" && !Turn.Truthy(mapIntent(t))
    ensures var s' := Step(s, Heard(t), mapIntent);
      s' == s.(transcript := t, listening := false, utterances := s.utterances + [Turn.RepeatPrompt])
  {
  }
}
